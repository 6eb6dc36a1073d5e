/** Publishing, pushing and consuming at the granularity of locks: a publish enqueues under the topic's lock
    and later pushes in further locked sections, so pushes, consumers, acknowledgements and requeues of any
    number of clients interleave freely. A run is any sequence of steps; a step that is not possible in a
    state changes nothing. */
module Dispatch {
  import opened Messages
  import opened Queueing

  type TopicId = nat
  type JobId = nat

  /** Where a push stands: looking for parked consumers, sending to those it took off a list, or removing
      the message it has handed over. */
  datatype Phase = Offering | Sending | Removing

  /** The push of one published message: `wild` are the matching wildcard topics still to visit before the
      message's own topic, `held` the channels taken off waiting lists and not yet sent to. */
  datatype Job = Job(topic: TopicId, msg: Message, broadcast: bool,
                     wild: seq<TopicId>, held: seq<Channel>, phase: Phase)

  datatype Place = ParkedAt(topic: TopicId) | HeldBy(job: JobId)

  /** `inbox` is everything ever sent to a channel and `occupied` the channels whose buffer of one is full;
      `missed` counts the sends that found it full. `place` records where each live channel is. */
  datatype State = State(
    now: Time,
    topics: map<TopicId, TopicState>,
    jobs: map<JobId, Job>,
    used: set<Channel>,
    occupied: set<Channel>,
    inbox: map<Channel, seq<Message>>,
    missed: nat,
    place: map<Channel, Place>)

  datatype Step =
    | Tick(now: Time)
    | Publish(job: JobId, topic: TopicId, msg: Message, priority: string, broadcast: bool,
              wild: seq<TopicId>, maxMessages: nat, policy: Policy)
    | Push(job: JobId)
    | Visit(topic: TopicId, limit: int)
    | Consume(topic: TopicId, limit: int, ch: Channel)
    | Receive(ch: Channel)
    | GiveUp(topic: TopicId, ch: Channel)
    | Acknowledge(topic: TopicId, id: string)
    | Requeue(topic: TopicId, msg: Message)
    | PurgeExpired(topic: TopicId)
    | Clear(topic: TopicId)
    | DrainNormal(topic: TopicId)

  /** The system right after recovery: queues as recovered, nobody waiting, nothing under way. */
  function Init(now: Time, recovered: map<TopicId, Queues>): State {
    State(now, map t | t in recovered :: TopicState(recovered[t], []), map[], {}, {}, map[], 0, map[])
  }

  // ---------------------------------------------------------------------------
  // Steps
  // ---------------------------------------------------------------------------

  function SetQueues(s: State, t: TopicId, q: Queues): State
    requires t in s.topics
  {
    s.(topics := s.topics[t := s.topics[t].(queues := q)])
  }

  function SetWaiting(s: State, t: TopicId, waiting: seq<Channel>): State
    requires t in s.topics
  {
    s.(topics := s.topics[t := s.topics[t].(waiting := waiting)])
  }

  function Finish(s: State, j: JobId): State {
    s.(jobs := s.jobs - {j})
  }

  /** A send that does not block: it goes through when the channel's buffer is empty. */
  function Send(s: State, ch: Channel, m: Message): State {
    if ch in s.occupied then s.(missed := s.missed + 1, place := s.place - {ch})
    else s.(occupied := s.occupied + {ch},
            inbox := s.inbox[ch := (if ch in s.inbox then s.inbox[ch] else []) + [m]],
            place := s.place - {ch})
  }

  /** The id is a new one: no push and no queue knows it. */
  ghost predicate NewId(s: State, id: string) {
    && (forall j | j in s.jobs :: s.jobs[j].msg.id != id)
    && (forall t, m | t in s.topics && m in All(s.topics[t].queues) :: m.id != id)
  }

  ghost function ApplyPublish(s: State, j: JobId, t: TopicId, m: Message, priority: string, broadcast: bool,
                              wild: seq<TopicId>, maxMessages: nat, policy: Policy): State {
    if j !in s.jobs && t in s.topics && (forall w | w in wild :: w in s.topics) && maxMessages > 0 && NewId(s, m.id)
    then
      match Enqueue(s.topics[t].queues, m, priority, maxMessages, policy)
      case Full => s
      case Accepted(q, _) => SetQueues(s, t, q).(jobs := s.jobs[j := Job(t, m, broadcast, wild, [], Offering)])
    else s
  }

  /** The topic whose waiting list a push looks at next. */
  function Next(job: Job): TopicId {
    if job.wild == [] then job.topic else job.wild[0]
  }

  /** One look of a broadcast at a waiting list: all parked consumers are taken. */
  function Sweep(s: State, j: JobId): State
    requires j in s.jobs && Next(s.jobs[j]) in s.topics
  {
    var job, at := s.jobs[j], Next(s.jobs[j]);
    var taken := s.topics[at].waiting;
    var job' := job.(held := job.held + taken);
    SetWaiting(s, at, []).(
      jobs := s.jobs[j := if job.wild == [] then job'.(phase := Sending) else job'.(wild := job.wild[1..])],
      place := map c | c in s.place :: if c in taken then HeldBy(j) else s.place[c])
  }

  /** One look of an ordinary push at a waiting list: the first parked consumer is taken, if there is one. */
  function Offer(s: State, j: JobId): State
    requires j in s.jobs && Next(s.jobs[j]) in s.topics
  {
    var job, at := s.jobs[j], Next(s.jobs[j]);
    var waiting := s.topics[at].waiting;
    if waiting != [] then
      SetWaiting(s, at, waiting[1..]).(
        jobs := s.jobs[j := job.(held := [waiting[0]], phase := Sending)],
        place := s.place[waiting[0] := HeldBy(j)])
    else if job.wild == [] then Finish(s, j)
    else s.(jobs := s.jobs[j := job.(wild := job.wild[1..])])
  }

  function SendHeld(s: State, j: JobId): State
    requires j in s.jobs && s.jobs[j].held != []
  {
    var job := s.jobs[j];
    var ch := job.held[0];
    var s' := Send(s, ch, job.msg);
    if job.broadcast then s'.(jobs := s.jobs[j := job.(held := job.held[1..])])
    else if ch !in s.occupied then s'.(jobs := s.jobs[j := job.(held := [], phase := Removing)])
    else if job.wild == [] then Finish(s', j)
    else s'.(jobs := s.jobs[j := job.(held := [], wild := job.wild[1..], phase := Offering)])
  }

  function ApplyPush(s: State, j: JobId): State {
    if j in s.jobs && Due(s.jobs[j].msg, s.now) then
      var job := s.jobs[j];
      match job.phase
      case Offering => if Next(job) !in s.topics then s else if job.broadcast then Sweep(s, j) else Offer(s, j)
      case Sending => if job.held == [] then Finish(s, j) else SendHeld(s, j)
      case Removing =>
        if job.topic in s.topics then Finish(SetQueues(s, job.topic, Remove(s.topics[job.topic].queues, job.msg.id)), j)
        else s
    else s
  }

  function ApplyConsume(s: State, t: TopicId, limit: int, ch: Channel): State {
    if t in s.topics && limit >= 1 && ch !in s.used then
      var t' := ConsumeOrPark(s.topics[t], limit, s.now, ch);
      s.(topics := s.topics[t := t'],
         used := s.used + {ch},
         place := if t'.waiting == s.topics[t].waiting then s.place else s.place[ch := ParkedAt(t)])
    else s
  }

  function ApplyGiveUp(s: State, t: TopicId, ch: Channel): State {
    if t in s.topics && ch in s.topics[t].waiting
    then SetWaiting(s, t, Unpark(s.topics[t].waiting, ch)).(place := s.place - {ch})
    else s
  }

  function ApplyRequeue(s: State, t: TopicId, m: Message): State {
    if t in s.topics then
      var waiting := s.topics[t].waiting;
      var t' := RequeueInto(s.topics[t], m, waiting != [] && waiting[0] !in s.occupied);
      (if waiting == [] then s else Send(s, waiting[0], m)).(topics := s.topics[t := t'])
    else s
  }

  ghost function Apply(s: State, step: Step): State {
    match step
    case Tick(now) => if now >= s.now then s.(now := now) else s
    case Publish(j, t, m, priority, broadcast, wild, maxMessages, policy) =>
      ApplyPublish(s, j, t, m, priority, broadcast, wild, maxMessages, policy)
    case Push(j) => ApplyPush(s, j)
    case Visit(t, limit) =>
      if t in s.topics then SetQueues(s, t, Extract(s.topics[t].queues, limit, s.now).left) else s
    case Consume(t, limit, ch) => ApplyConsume(s, t, limit, ch)
    case Receive(ch) => s.(occupied := s.occupied - {ch})
    case GiveUp(t, ch) => ApplyGiveUp(s, t, ch)
    case Acknowledge(t, id) => if t in s.topics then SetQueues(s, t, Remove(s.topics[t].queues, id)) else s
    case Requeue(t, m) => ApplyRequeue(s, t, m)
    case PurgeExpired(t) => if t in s.topics then SetQueues(s, t, Purge(s.topics[t].queues, s.now)) else s
    case Clear(t) => if t in s.topics then SetQueues(s, t, Queues([], [], [])) else s
    case DrainNormal(t) => if t in s.topics then SetQueues(s, t, s.topics[t].queues.(normal := [])) else s
  }

  ghost function Run(s: State, steps: seq<Step>): State {
    if steps == [] then s else Apply(Run(s, steps[..|steps| - 1]), steps[|steps| - 1])
  }
}
