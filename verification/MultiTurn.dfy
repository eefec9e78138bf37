/** The multi-turn workload generator: a sender thread and a response thread share a ready queue,
    a response queue and two counters. Here the two threads and the requests in flight are one
    transition system; every step is one action on shared state, in any order the threads allow. */
module MultiTurn {
  import opened Arithmetic
  import opened Rosters
  import opened Sums

  datatype Config = Config(numClients: nat, numRounds: nat, maxParallel: nat, inputs: seq<string>)

  /** One candidate input per client and round, as `sample_random_requests` is asked for. */
  ghost predicate ValidConfig(cfg: Config) {
    && |cfg.inputs| == Times(cfg.numClients, cfg.numRounds)
    && (cfg.numClients > 0 ==> cfg.numRounds >= 1)
  }

  datatype Item = Item(client: nat, payload: string)
  datatype Response = Response(client: nat, text: string)
  datatype Record = Record(round: nat, history: string)

  /** Where the sender loop stands. */
  datatype Sender = Checking | Popping | Sending(item: Item) | Testing | Sleeping | Exited

  /** Where the response handler stands. */
  datatype Handler = Waiting | Counting(client: nat) | Requeueing(client: nat) | Crashed

  /** Bookkeeping for the proofs, per client: where its request is, and what was said so far. */
  datatype Place = Ready | Picked | InFlight | Answered | Handled | Done
  datatype Trace = Trace(place: Place, payloads: seq<string>, answers: seq<string>, inputs: seq<nat>)

  datatype State = State(
    sentRequests: int,
    completedRequests: int,
    progress: nat,
    candidateInputs: seq<string>,
    readyQueue: seq<Item>,
    inFlight: seq<Item>,
    responseQueue: seq<Response>,
    records: seq<Record>,
    sender: Sender,
    handler: Handler,
    traces: seq<Trace>)

  datatype Event =
    | Check                             // sender: room for another request?
    | Pop(index: nat)                   // sender: take any ready request, if there is one
    | Send                              // sender: start the request and count it
    | Test                              // sender: all answered?
    | Wake                              // sender: end of a sleep
    | Answer(index: nat, text: string)  // a request completes while the sender sleeps
    | Take                              // handler: next response, extend the history
    | Count                             // handler: count it
    | Requeue                           // handler: next turn of the same client

  ghost function Init(cfg: Config): State
    requires ValidConfig(cfg)
  {
    if cfg.numClients > 0 then FirstInputs(cfg); InitOf(cfg) else InitOf(cfg)
  }

  lemma FirstInputs(cfg: Config)
    requires ValidConfig(cfg)
    ensures cfg.numClients <= |cfg.inputs|
  {
    if cfg.numClients > 0 {
      TimesIsProduct(cfg.numClients, cfg.numRounds);
      TimesIsProduct(cfg.numClients, 1);
      MulMonotone(1, cfg.numRounds, cfg.numClients);
    }
  }

  ghost function InitOf(cfg: Config): State
    requires cfg.numClients <= |cfg.inputs|
  {
    State(0, 0, 0, cfg.inputs[cfg.numClients..],
          seq(cfg.numClients, i requires 0 <= i < cfg.numClients => Item(i, cfg.inputs[i])), [], [],
          seq(cfg.numClients, i requires 0 <= i < cfg.numClients => Record(0, cfg.inputs[i])),
          Checking, Waiting,
          seq(cfg.numClients, i requires 0 <= i < cfg.numClients => Trace(Ready, [], [], [i])))
  }

  predicate Enabled(cfg: Config, s: State, e: Event) {
    match e
    case Check => s.sender.Checking?
    case Pop(index) => s.sender.Popping? && (s.readyQueue != [] ==> index < |s.readyQueue|)
    case Send => s.sender.Sending?
    case Test => s.sender.Testing?
    case Wake => s.sender.Sleeping?
    case Answer(index, _) => s.sender.Sleeping? && index < |s.inFlight|
    case Take => s.handler.Waiting? && s.responseQueue != []
    case Count => s.handler.Counting?
    case Requeue => s.handler.Requeueing?
  }

  /** All clients mentioned in the queues have records. */
  ghost predicate WellFormed(cfg: Config, s: State) {
    && |s.records| == |s.traces| == cfg.numClients
    && (forall i | 0 <= i < |s.readyQueue| :: s.readyQueue[i].client < cfg.numClients)
    && (forall i | 0 <= i < |s.inFlight| :: s.inFlight[i].client < cfg.numClients)
    && (forall i | 0 <= i < |s.responseQueue| :: s.responseQueue[i].client < cfg.numClients)
    && (s.sender.Sending? ==> s.sender.item.client < cfg.numClients)
    && (s.handler.Counting? || s.handler.Requeueing? ==> s.handler.client < cfg.numClients)
  }

  /** Sender: is there room in the window for another request? */
  ghost function DoCheck(cfg: Config, s: State): State {
    s.(sender := if s.sentRequests - s.completedRequests < cfg.maxParallel then Popping else Sleeping)
  }

  /** Sender: take any ready request, if there is one. */
  ghost function DoPop(cfg: Config, s: State, index: nat): State
    requires WellFormed(cfg, s) && Enabled(cfg, s, Pop(index))
  {
    if s.readyQueue == [] then s.(sender := Testing)
    else
      var item := s.readyQueue[index];
      s.(readyQueue := Removed(s.readyQueue, index), sender := Sending(item),
         traces := s.traces[item.client := s.traces[item.client].(place := Picked)])
  }

  /** Sender: start the request as a task and count it. */
  ghost function DoSend(cfg: Config, s: State): State
    requires WellFormed(cfg, s) && Enabled(cfg, s, Send)
  {
    var item := s.sender.item;
    var t := s.traces[item.client];
    s.(inFlight := s.inFlight + [item], sentRequests := s.sentRequests + 1, sender := Testing,
       traces := s.traces[item.client := t.(place := InFlight, payloads := t.payloads + [item.payload])])
  }

  /** Sender: has every request been answered? */
  ghost function DoTest(cfg: Config, s: State): State {
    s.(sender := if s.progress == |cfg.inputs| then Exited else Sleeping)
  }

  /** A request completes: progress bar and response queue move together. */
  ghost function DoAnswer(cfg: Config, s: State, index: nat, text: string): State
    requires WellFormed(cfg, s) && Enabled(cfg, s, Answer(index, text))
  {
    var c := s.inFlight[index].client;
    var t := s.traces[c];
    s.(inFlight := Removed(s.inFlight, index), progress := s.progress + 1,
       responseQueue := s.responseQueue + [Response(c, text)],
       traces := s.traces[c := t.(place := Answered, answers := t.answers + [text])])
  }

  /** Handler: the oldest response ends a round of its client. */
  ghost function DoTake(cfg: Config, s: State): State
    requires WellFormed(cfg, s) && Enabled(cfg, s, Take)
  {
    var r := s.responseQueue[0];
    var record := s.records[r.client];
    s.(responseQueue := s.responseQueue[1..], handler := Counting(r.client),
       records := s.records[r.client := Record(record.round + 1, record.history + r.text)],
       traces := s.traces[r.client := s.traces[r.client].(place := Handled)])
  }

  /** Handler: count the response; is the client to go on? */
  ghost function DoCount(cfg: Config, s: State): State
    requires WellFormed(cfg, s) && Enabled(cfg, s, Count)
  {
    var c := s.handler.client;
    if s.records[c].round < cfg.numRounds then
      s.(completedRequests := s.completedRequests + 1, handler := Requeueing(c))
    else
      s.(completedRequests := s.completedRequests + 1, handler := Waiting,
         traces := s.traces[c := s.traces[c].(place := Done)])
  }

  /** Handler: the client's next turn, with a fresh input from the end of the list. */
  ghost function DoRequeue(cfg: Config, s: State): State
    requires WellFormed(cfg, s) && Enabled(cfg, s, Requeue)
  {
    var c := s.handler.client;
    if s.candidateInputs == [] then s.(handler := Crashed)
    else
      var last := |s.candidateInputs| - 1;
      var history := s.records[c].history + s.candidateInputs[last];
      var t := s.traces[c];
      s.(candidateInputs := s.candidateInputs[..last], handler := Waiting,
         records := s.records[c := s.records[c].(history := history)],
         readyQueue := s.readyQueue + [Item(c, history)],
         traces := s.traces[c := t.(place := Ready, inputs := t.inputs + [cfg.numClients + last])])
  }

  ghost function Step(cfg: Config, s: State, e: Event): State
    requires WellFormed(cfg, s) && Enabled(cfg, s, e)
  {
    match e
    case Check => DoCheck(cfg, s)
    case Pop(index) => DoPop(cfg, s, index)
    case Send => DoSend(cfg, s)
    case Test => DoTest(cfg, s)
    case Wake => s.(sender := Checking)
    case Answer(index, text) => DoAnswer(cfg, s, index, text)
    case Take => DoTake(cfg, s)
    case Count => DoCount(cfg, s)
    case Requeue => DoRequeue(cfg, s)
  }

  // ---- what every reachable state satisfies -----------------------------------------------------

  /** Inputs and answers in turn: the conversation as one text. */
  ghost function Transcript(cfg: Config, inputs: seq<nat>, answers: seq<string>): string
    requires |answers| <= |inputs| <= |answers| + 1
    requires forall k | 0 <= k < |inputs| :: inputs[k] < |cfg.inputs|
    decreases |inputs| + |answers|
  {
    if inputs == [] then ""
    else if |inputs| > |answers| then
      Transcript(cfg, inputs[..|inputs| - 1], answers) + cfg.inputs[inputs[|inputs| - 1]]
    else
      Transcript(cfg, inputs, answers[..|answers| - 1]) + answers[|answers| - 1]
  }

  ghost function Places(traces: seq<Trace>): seq<Place> {
    seq(|traces|, c requires 0 <= c < |traces| => traces[c].place)
  }

  ghost function Clients(items: seq<Item>): seq<nat> {
    seq(|items|, i requires 0 <= i < |items| => items[i].client)
  }

  ghost function Responders(responses: seq<Response>): seq<nat> {
    seq(|responses|, i requires 0 <= i < |responses| => responses[i].client)
  }

  /** The clients whose request is in the given place. */
  ghost function At(s: State, place: Place): seq<nat> {
    match place
    case Ready => Clients(s.readyQueue)
    case Picked => if s.sender.Sending? then [s.sender.item.client] else []
    case InFlight => Clients(s.inFlight)
    case Answered => Responders(s.responseQueue)
    case Handled => if s.handler.Counting? || s.handler.Requeueing? then [s.handler.client] else []
    case Done => []
  }

  /** Every client's request is in exactly one place, the one that `traces` names. */
  ghost predicate Located(s: State) {
    forall place: Place | place != Done :: Holds(At(s, place), Places(s.traces), place)
  }

  /** How far a client has come, by the place of its request. */
  ghost predicate ClientOk(cfg: Config, r: Record, t: Trace) {
    && (forall k | 0 <= k < |t.inputs| :: t.inputs[k] < |cfg.inputs|)
    && |t.inputs| == (if t.place.Handled? || t.place.Done? then r.round else r.round + 1)
    && |t.payloads| == (if t.place.InFlight? || t.place.Answered? then r.round + 1 else r.round)
    && |t.answers| == (if t.place.Answered? then r.round + 1 else r.round)
    && (if t.place.Done? then r.round == cfg.numRounds
        else if t.place.Handled? then 1 <= r.round <= cfg.numRounds
        else r.round < cfg.numRounds)
    && r.history == Transcript(cfg, t.inputs, t.answers[..r.round])
    && (forall k | 0 <= k < |t.payloads| ::
          k < |t.inputs| && k <= |t.answers| && t.payloads[k] == Transcript(cfg, t.inputs[..k + 1], t.answers[..k]))
  }

  ghost predicate ClientsOk(cfg: Config, s: State) {
    && |s.records| == |s.traces| == cfg.numClients
    && forall c | 0 <= c < cfg.numClients :: ClientOk(cfg, s.records[c], s.traces[c])
  }

  /** A waiting request carries its client's whole history. */
  ghost predicate RequestOk(records: seq<Record>, item: Item) {
    item.client < |records| && item.payload == records[item.client].history
  }

  /** A response carries its client's latest answer. */
  ghost predicate ResponseOk(traces: seq<Trace>, r: Response) {
    && r.client < |traces| && traces[r.client].answers != []
    && r.text == traces[r.client].answers[|traces[r.client].answers| - 1]
  }

  ghost predicate MessagesOk(cfg: Config, s: State) {
    && (forall i | 0 <= i < |s.readyQueue| :: RequestOk(s.records, s.readyQueue[i]))
    && (s.sender.Sending? ==> RequestOk(s.records, s.sender.item))
    && (forall i | 0 <= i < |s.responseQueue| :: ResponseOk(s.traces, s.responseQueue[i]))
    && (s.handler.Requeueing? ==> s.handler.client < |s.records| && s.records[s.handler.client].round < cfg.numRounds)
  }

  ghost function InputsOf(t: Trace): nat { |t.inputs| }
  ghost function PayloadsOf(t: Trace): nat { |t.payloads| }
  ghost function AnswersOf(t: Trace): nat { |t.answers| }
  ghost function RoundOf(r: Record): nat { r.round }

  /** Responses the handler has taken: those counted, and the one it is about to count. */
  ghost function Completed(s: State): int {
    s.completedRequests + if s.handler.Counting? then 1 else 0
  }

  /** The shared counters are the totals over the clients. */
  ghost predicate CountersOk(cfg: Config, s: State) {
    && s.sentRequests == SumBy(s.traces, PayloadsOf)
    && s.progress == SumBy(s.traces, AnswersOf)
    && Completed(s) == SumBy(s.records, RoundOf)
    && |cfg.inputs| == SumBy(s.traces, InputsOf) + |s.candidateInputs|
  }

  /** Room in the window is never lost between the check and the send: the handler only adds to it. */
  ghost predicate WindowOk(cfg: Config, s: State) {
    && s.sentRequests - s.completedRequests <= cfg.maxParallel
    && (s.sender.Popping? || s.sender.Sending? ==> s.sentRequests - s.completedRequests < cfg.maxParallel)
  }

  /** Position `pos` of the candidate inputs has been handed out. */
  ghost predicate Used(cfg: Config, s: State, pos: int) {
    0 <= pos < cfg.numClients || cfg.numClients + |s.candidateInputs| <= pos < |cfg.inputs|
  }

  /** Candidates are handed out once: no position serves two turns, each used one serves a turn. */
  ghost predicate CandidatesOk(cfg: Config, s: State) {
    && cfg.numClients + |s.candidateInputs| <= |cfg.inputs|
    && s.candidateInputs == cfg.inputs[cfg.numClients..cfg.numClients + |s.candidateInputs|]
    && (forall c, k | 0 <= c < |s.traces| && 0 <= k < |s.traces[c].inputs| :: Used(cfg, s, s.traces[c].inputs[k]))
    && (forall c, k, d, l | 0 <= c < |s.traces| && 0 <= k < |s.traces[c].inputs|
                            && 0 <= d < |s.traces| && 0 <= l < |s.traces[d].inputs|
                            && s.traces[c].inputs[k] == s.traces[d].inputs[l] :: c == d && k == l)
    && (forall pos | Used(cfg, s, pos) :: exists c | 0 <= c < |s.traces| :: pos in s.traces[c].inputs)
  }

  ghost predicate Inv(cfg: Config, s: State) {
    && ValidConfig(cfg)
    && WellFormed(cfg, s)
    && !s.handler.Crashed?
    && Located(s)
    && ClientsOk(cfg, s)
    && MessagesOk(cfg, s)
    && CountersOk(cfg, s)
    && WindowOk(cfg, s)
    && CandidatesOk(cfg, s)
    && (s.sender.Exited? ==> s.progress == |cfg.inputs|)
  }

  // ---- places -----------------------------------------------------------------------------------

  /** One request moves from one place to another and nothing else does. */
  lemma Relocate(s: State, s': State, from: Place, i: nat, to: Place, t: Trace)
    requires Located(s) && from != to && from != Done && i < |At(s, from)| && t.place == to
    requires At(s, from)[i] < |s.traces| && s'.traces == s.traces[At(s, from)[i] := t]
    requires At(s', from) == Removed(At(s, from), i)
    requires to != Done ==> At(s', to) == At(s, to) + [At(s, from)[i]]
    requires forall place | place != from && place != to && place != Done :: At(s', place) == At(s, place)
    ensures Located(s')
  {
    var c := At(s, from)[i];
    assert Places(s'.traces) == Places(s.traces)[c := to];
    assert Holds(At(s, from), Places(s.traces), from);
    forall place: Place | place != Done ensures Holds(At(s', place), Places(s'.traces), place) {
      assert Holds(At(s, place), Places(s.traces), place);
      if place == from {
        MoveOut(At(s, from), Places(s.traces), from, i, to);
      } else if place == to {
        MoveIn(At(s, to), Places(s.traces), to, c);
      } else {
        StayPut(At(s, place), Places(s.traces), place, c, to);
      }
    }
  }

  lemma PopLocated(cfg: Config, s: State, index: nat)
    requires WellFormed(cfg, s) && Enabled(cfg, s, Pop(index)) && Located(s) && s.readyQueue != []
    ensures Located(DoPop(cfg, s, index))
  {
    var s' := DoPop(cfg, s, index);
    assert At(s', Ready) == Removed(At(s, Ready), index);
    assert At(s', Picked) == At(s, Picked) + [s.readyQueue[index].client];
    Relocate(s, s', Ready, index, Picked, s'.traces[s.readyQueue[index].client]);
  }

  lemma SendLocated(cfg: Config, s: State)
    requires WellFormed(cfg, s) && Enabled(cfg, s, Send) && Located(s)
    ensures Located(DoSend(cfg, s))
  {
    var s' := DoSend(cfg, s);
    assert At(s', Picked) == Removed(At(s, Picked), 0);
    assert At(s', InFlight) == At(s, InFlight) + [s.sender.item.client];
    Relocate(s, s', Picked, 0, InFlight, s'.traces[s.sender.item.client]);
  }

  lemma AnswerLocated(cfg: Config, s: State, index: nat, text: string)
    requires WellFormed(cfg, s) && Enabled(cfg, s, Answer(index, text)) && Located(s)
    ensures Located(DoAnswer(cfg, s, index, text))
  {
    var s' := DoAnswer(cfg, s, index, text);
    assert At(s', InFlight) == Removed(At(s, InFlight), index);
    assert At(s', Answered) == At(s, Answered) + [s.inFlight[index].client];
    Relocate(s, s', InFlight, index, Answered, s'.traces[s.inFlight[index].client]);
  }

  lemma TakeLocated(cfg: Config, s: State)
    requires WellFormed(cfg, s) && Enabled(cfg, s, Take) && Located(s)
    ensures Located(DoTake(cfg, s))
  {
    var s' := DoTake(cfg, s);
    assert At(s', Answered) == Removed(At(s, Answered), 0);
    assert At(s', Handled) == At(s, Handled) + [s.responseQueue[0].client];
    Relocate(s, s', Answered, 0, Handled, s'.traces[s.responseQueue[0].client]);
  }

  lemma CountLocated(cfg: Config, s: State)
    requires WellFormed(cfg, s) && Enabled(cfg, s, Count) && Located(s)
    ensures Located(DoCount(cfg, s))
  {
    var s' := DoCount(cfg, s);
    if s.records[s.handler.client].round >= cfg.numRounds {
      assert At(s', Handled) == Removed(At(s, Handled), 0);
      Relocate(s, s', Handled, 0, Done, s'.traces[s.handler.client]);
    } else {
      assert forall place :: At(s', place) == At(s, place);
    }
  }

  lemma RequeueLocated(cfg: Config, s: State)
    requires WellFormed(cfg, s) && Enabled(cfg, s, Requeue) && Located(s) && s.candidateInputs != []
    ensures Located(DoRequeue(cfg, s))
  {
    var s' := DoRequeue(cfg, s);
    assert At(s', Handled) == Removed(At(s, Handled), 0);
    assert At(s', Ready) == At(s, Ready) + [s.handler.client];
    Relocate(s, s', Handled, 0, Ready, s'.traces[s.handler.client]);
  }

  // ---- the other parts of the invariant -----------------------------------------------------------

  /** Which client a step is about; its record and trace are the only ones that change. */
  ghost function Subject(cfg: Config, s: State, e: Event): int
    requires WellFormed(cfg, s) && Enabled(cfg, s, e)
  {
    match e
    case Pop(index) => if s.readyQueue == [] then -1 else s.readyQueue[index].client
    case Send => s.sender.item.client
    case Answer(index, _) => s.inFlight[index].client
    case Take => s.responseQueue[0].client
    case Count => s.handler.client
    case Requeue => s.handler.client
    case _ => -1
  }

  lemma OneClientChanges(cfg: Config, s: State, e: Event)
    requires WellFormed(cfg, s) && Enabled(cfg, s, e)
    ensures |Step(cfg, s, e).records| == |Step(cfg, s, e).traces| == cfg.numClients
    ensures forall c | 0 <= c < cfg.numClients && c != Subject(cfg, s, e) ::
              Step(cfg, s, e).records[c] == s.records[c] && Step(cfg, s, e).traces[c] == s.traces[c]
  {
  }

  /** The subject of a step is in the place the step takes it from. */
  lemma SubjectPlace(cfg: Config, s: State, e: Event)
    requires WellFormed(cfg, s) && Located(s) && Enabled(cfg, s, e) && Subject(cfg, s, e) >= 0
    ensures Subject(cfg, s, e) < cfg.numClients
    ensures s.traces[Subject(cfg, s, e)].place == match e
              case Pop(_) => Ready
              case Send => Picked
              case Answer(_, _) => InFlight
              case Take => Answered
              case _ => Handled
  {
    var place := match e
      case Pop(_) => Ready
      case Send => Picked
      case Answer(_, _) => InFlight
      case Take => Answered
      case _ => Handled;
    var i := match e case Pop(index) => index case Answer(index, _) => index case _ => 0;
    assert Holds(At(s, place), Places(s.traces), place);
    assert At(s, place)[i] == Subject(cfg, s, e);
  }

  /** The effect of the steps on the subject's record and trace, and what it keeps. */
  lemma SentOk(cfg: Config, r: Record, t: Trace)
    requires ClientOk(cfg, r, t) && t.place == Picked
    ensures ClientOk(cfg, r, t.(place := InFlight, payloads := t.payloads + [r.history]))
  {
    assert t.inputs[..r.round + 1] == t.inputs && t.answers[..r.round] == t.answers;
  }

  lemma AnsweredOk(cfg: Config, r: Record, t: Trace, text: string)
    requires ClientOk(cfg, r, t) && t.place == InFlight
    ensures ClientOk(cfg, r, t.(place := Answered, answers := t.answers + [text]))
  {
    var answers := t.answers + [text];
    assert answers[..r.round] == t.answers[..r.round];
    assert forall k | 0 <= k < |t.payloads| :: answers[..k] == t.answers[..k];
  }

  lemma TakenOk(cfg: Config, r: Record, t: Trace)
    requires ClientOk(cfg, r, t) && t.place == Answered
    ensures ClientOk(cfg, Record(r.round + 1, r.history + t.answers[r.round]), t.(place := Handled))
  {
    assert t.answers[..r.round + 1] == t.answers && t.answers[..|t.answers| - 1] == t.answers[..r.round];
  }

  lemma RequeuedOk(cfg: Config, r: Record, t: Trace, pos: nat)
    requires ClientOk(cfg, r, t) && t.place == Handled && r.round < cfg.numRounds && pos < |cfg.inputs|
    ensures ClientOk(cfg, r.(history := r.history + cfg.inputs[pos]), t.(place := Ready, inputs := t.inputs + [pos]))
  {
    var inputs := t.inputs + [pos];
    assert inputs[..|inputs| - 1] == t.inputs;
    assert t.answers[..r.round] == t.answers;
    forall k | 0 <= k < |t.payloads|
      ensures t.payloads[k] == Transcript(cfg, inputs[..k + 1], t.answers[..k])
    {
      assert inputs[..k + 1] == t.inputs[..k + 1];
    }
  }

  lemma ClientsUpdate(cfg: Config, s: State, s': State, c: nat)
    requires ClientsOk(cfg, s) && c < cfg.numClients && |s'.records| == |s'.traces| == cfg.numClients
    requires forall d | 0 <= d < cfg.numClients && d != c :: s'.records[d] == s.records[d] && s'.traces[d] == s.traces[d]
    requires ClientOk(cfg, s'.records[c], s'.traces[c])
    ensures ClientsOk(cfg, s')
  {
  }

  lemma ClientsStep(cfg: Config, s: State, e: Event)
    requires WellFormed(cfg, s) && Located(s) && ClientsOk(cfg, s) && MessagesOk(cfg, s) && Enabled(cfg, s, e)
    requires Subject(cfg, s, e) >= 0
    requires e.Requeue? ==> s.candidateInputs != [] && cfg.numClients + |s.candidateInputs| <= |cfg.inputs|
    requires e.Requeue? ==> s.candidateInputs == cfg.inputs[cfg.numClients..cfg.numClients + |s.candidateInputs|]
    ensures ClientsOk(cfg, Step(cfg, s, e))
  {
    hide Located, Transcript;
    SubjectPlace(cfg, s, e);
    OneClientChanges(cfg, s, e);
    var c := Subject(cfg, s, e);
    var r, t := s.records[c], s.traces[c];
    match e {
      case Send =>
        SentOk(cfg, r, t);
      case Answer(_, text) =>
        AnsweredOk(cfg, r, t, text);
      case Take =>
        assert ResponseOk(s.traces, s.responseQueue[0]);
        TakenOk(cfg, r, t);
      case Requeue =>
        RequeuedOk(cfg, r, t, cfg.numClients + |s.candidateInputs| - 1);
      case _ =>
    }
    ClientsUpdate(cfg, s, Step(cfg, s, e), c);
  }

  /** What a step does to one client leaves the messages of all others as they are. */
  lemma MessagesElsewhere(s: State, c: nat, r: Record, t: Trace)
    requires Located(s) && c < |s.traces| == |s.records|
    requires forall i | 0 <= i < |s.readyQueue| :: RequestOk(s.records, s.readyQueue[i])
    requires forall i | 0 <= i < |s.responseQueue| :: ResponseOk(s.traces, s.responseQueue[i])
    ensures s.traces[c].place != Ready ==>
              forall i | 0 <= i < |s.readyQueue| :: RequestOk(s.records[c := r], s.readyQueue[i])
    ensures s.traces[c].place != Answered ==>
              forall i | 0 <= i < |s.responseQueue| :: ResponseOk(s.traces[c := t], s.responseQueue[i])
    ensures forall i | 1 <= i < |s.responseQueue| && c == s.responseQueue[0].client ::
              ResponseOk(s.traces[c := t], s.responseQueue[i])
  {
    assert Holds(At(s, Ready), Places(s.traces), Ready) && Holds(At(s, Answered), Places(s.traces), Answered);
    forall i | 0 <= i < |s.readyQueue| && s.traces[c].place != Ready
      ensures RequestOk(s.records[c := r], s.readyQueue[i])
    {
      assert At(s, Ready)[i] == s.readyQueue[i].client;
    }
    forall i | 0 <= i < |s.responseQueue| && (s.traces[c].place != Answered || (1 <= i && c == s.responseQueue[0].client))
      ensures ResponseOk(s.traces[c := t], s.responseQueue[i])
    {
      assert At(s, Answered)[i] == s.responseQueue[i].client && At(s, Answered)[0] == s.responseQueue[0].client;
    }
  }

  lemma HandsDistinct(s: State)
    requires Located(s)
    ensures s.sender.Sending? ==> s.sender.item.client < |s.traces| && s.traces[s.sender.item.client].place == Picked
    ensures s.handler.Requeueing? || s.handler.Counting?
            ==> s.handler.client < |s.traces| && s.traces[s.handler.client].place == Handled
  {
    assert Holds(At(s, Picked), Places(s.traces), Picked) && Holds(At(s, Handled), Places(s.traces), Handled);
    if s.sender.Sending? { assert At(s, Picked)[0] == s.sender.item.client; }
    if s.handler.Requeueing? || s.handler.Counting? { assert At(s, Handled)[0] == s.handler.client; }
  }

  lemma WellFormedStep(cfg: Config, s: State, e: Event)
    requires WellFormed(cfg, s) && Enabled(cfg, s, e)
    ensures WellFormed(cfg, Step(cfg, s, e))
  {
  }

  lemma MessagesStep(cfg: Config, s: State, e: Event)
    requires WellFormed(cfg, s) && Located(s) && MessagesOk(cfg, s) && Enabled(cfg, s, e) && Subject(cfg, s, e) >= 0
    requires e.Requeue? ==> s.candidateInputs != []
    ensures WellFormed(cfg, Step(cfg, s, e)) && MessagesOk(cfg, Step(cfg, s, e))
  {
    WellFormedStep(cfg, s, e);
    HandsDistinct(s);
    hide Located, Holds, WellFormed;
    SubjectPlace(cfg, s, e);
    var s', c := Step(cfg, s, e), Subject(cfg, s, e);
    MessagesElsewhere(s, c, s'.records[c], s'.traces[c]);
    assert s'.traces == s.traces[c := s'.traces[c]] && s'.records == s.records[c := s'.records[c]];
  }

  /** The totals follow when one client and the counters change by the same amounts. */
  lemma CountersUpdate(cfg: Config, s: State, s': State, c: nat)
    requires CountersOk(cfg, s) && c < |s.traces| == |s'.traces| && c < |s.records| == |s'.records|
    requires s'.traces == s.traces[c := s'.traces[c]] && s'.records == s.records[c := s'.records[c]]
    requires s'.sentRequests - s.sentRequests == PayloadsOf(s'.traces[c]) - PayloadsOf(s.traces[c])
    requires s'.progress - s.progress == AnswersOf(s'.traces[c]) - AnswersOf(s.traces[c])
    requires Completed(s') - Completed(s) == RoundOf(s'.records[c]) - RoundOf(s.records[c])
    requires |s.candidateInputs| - |s'.candidateInputs| == InputsOf(s'.traces[c]) - InputsOf(s.traces[c])
    ensures CountersOk(cfg, s')
  {
    SumByUpdate(s.traces, PayloadsOf, c, s'.traces[c]);
    SumByUpdate(s.traces, AnswersOf, c, s'.traces[c]);
    SumByUpdate(s.traces, InputsOf, c, s'.traces[c]);
    SumByUpdate(s.records, RoundOf, c, s'.records[c]);
  }

  lemma CountersStep(cfg: Config, s: State, e: Event)
    requires WellFormed(cfg, s) && Enabled(cfg, s, e) && CountersOk(cfg, s)
    requires e.Requeue? ==> s.candidateInputs != []
    ensures CountersOk(cfg, Step(cfg, s, e))
  {
    hide SumBy;
    var c := Subject(cfg, s, e);
    if c >= 0 {
      hide CountersOk;
      CountersUpdate(cfg, s, Step(cfg, s, e), c);
    }
  }

  /** Which candidates are used, and by whom, depends on nothing but the inputs of the clients. */
  lemma CandidatesFrame(cfg: Config, s: State, s': State)
    requires CandidatesOk(cfg, s) && s'.candidateInputs == s.candidateInputs && |s'.traces| == |s.traces|
    requires forall d | 0 <= d < |s.traces| :: s'.traces[d].inputs == s.traces[d].inputs
    ensures CandidatesOk(cfg, s')
  {
    forall pos | Used(cfg, s', pos) ensures exists d | 0 <= d < |s'.traces| :: pos in s'.traces[d].inputs {
      assert Used(cfg, s, pos);
      var d :| 0 <= d < |s.traces| && pos in s.traces[d].inputs;
      assert pos in s'.traces[d].inputs;
    }
  }

  lemma CandidatesStep(cfg: Config, s: State, e: Event)
    requires WellFormed(cfg, s) && Enabled(cfg, s, e) && CandidatesOk(cfg, s) && !e.Requeue?
    ensures CandidatesOk(cfg, Step(cfg, s, e))
  {
    hide CandidatesOk;
    CandidatesFrame(cfg, s, Step(cfg, s, e));
  }

  /** Handing out the last remaining candidate to client `c`. */
  lemma CandidatesRequeue(cfg: Config, s: State)
    requires WellFormed(cfg, s) && s.handler.Requeueing? && CandidatesOk(cfg, s) && s.candidateInputs != []
    ensures CandidatesOk(cfg, Step(cfg, s, Requeue))
  {
    var s' := Step(cfg, s, Requeue);
    var c := s.handler.client;
    var pos := cfg.numClients + |s.candidateInputs| - 1;
    assert s'.traces[c].inputs == s.traces[c].inputs + [pos] && !Used(cfg, s, pos);
    assert forall d | 0 <= d < |s.traces| && d != c :: s'.traces[d].inputs == s.traces[d].inputs;
    forall q | Used(cfg, s', q) ensures exists d | 0 <= d < |s'.traces| :: q in s'.traces[d].inputs {
      if q == pos {
        assert q in s'.traces[c].inputs;
      } else {
        assert Used(cfg, s, q);
        var d :| 0 <= d < |s.traces| && q in s.traces[d].inputs;
        assert q in s'.traces[d].inputs;
      }
    }
    CandidatesFresh(cfg, s, c, pos, s'.traces);
  }

  lemma CandidatesFresh(cfg: Config, s: State, c: nat, pos: nat, traces: seq<Trace>)
    requires CandidatesOk(cfg, s) && c < |s.traces| == |traces| && !Used(cfg, s, pos)
    requires traces[c].inputs == s.traces[c].inputs + [pos]
    requires forall d | 0 <= d < |s.traces| && d != c :: traces[d].inputs == s.traces[d].inputs
    ensures forall a, k, b, l | 0 <= a < |traces| && 0 <= k < |traces[a].inputs|
                                && 0 <= b < |traces| && 0 <= l < |traces[b].inputs|
                                && traces[a].inputs[k] == traces[b].inputs[l] :: a == b && k == l
  {
    forall a, k | 0 <= a < |traces| && 0 <= k < |traces[a].inputs|
      ensures traces[a].inputs[k] == pos <==> a == c && k == |s.traces[c].inputs|
      ensures k < |s.traces[a].inputs| ==> traces[a].inputs[k] == s.traces[a].inputs[k]
    {
      if k < |s.traces[a].inputs| {
        assert Used(cfg, s, s.traces[a].inputs[k]);
      }
    }
  }

  /** A client that still has turns to play leaves an input for it: the pop never underflows. */
  lemma CandidateLeft(cfg: Config, s: State)
    requires Inv(cfg, s) && s.handler.Requeueing?
    ensures s.candidateInputs != []
  {
    var c := s.handler.client;
    SubjectPlace(cfg, s, Requeue);
    assert ClientOk(cfg, s.records[c], s.traces[c]);
    assert |s.traces[c].inputs| < cfg.numRounds;
    assert forall d | 0 <= d < cfg.numClients :: ClientOk(cfg, s.records[d], s.traces[d]);
    SumByBound(s.traces, InputsOf, cfg.numRounds);
  }

  lemma InvInit(cfg: Config)
    requires ValidConfig(cfg)
    ensures Inv(cfg, Init(cfg))
  {
    FirstInputs(cfg);
    InitLocated(cfg);
    InitClients(cfg);
    InitCounters(cfg);
    InitCandidates(cfg);
  }

  lemma InitLocated(cfg: Config)
    requires cfg.numClients <= |cfg.inputs|
    ensures Located(InitOf(cfg))
  {
    var s := InitOf(cfg);
    forall place: Place | place != Done ensures Holds(At(s, place), Places(s.traces), place) {
      forall c | 0 <= c < cfg.numClients ensures c in At(s, Ready) {
        assert At(s, Ready)[c] == c;
      }
    }
  }

  lemma InitClients(cfg: Config)
    requires cfg.numClients <= |cfg.inputs| && (cfg.numClients > 0 ==> cfg.numRounds >= 1)
    ensures ClientsOk(cfg, InitOf(cfg))
  {
    var s := InitOf(cfg);
    forall c | 0 <= c < cfg.numClients ensures ClientOk(cfg, s.records[c], s.traces[c]) {
      assert [c][..0] == [];
      assert Transcript(cfg, [c], []) == Transcript(cfg, [], []) + cfg.inputs[c] == cfg.inputs[c];
    }
  }

  lemma InitCounters(cfg: Config)
    requires ValidConfig(cfg)
    ensures CountersOk(cfg, Init(cfg))
  {
    var s := Init(cfg);
    FirstInputs(cfg);
    SumByConstant(s.traces, PayloadsOf, 0);
    SumByConstant(s.traces, AnswersOf, 0);
    SumByConstant(s.traces, InputsOf, 1);
    SumByConstant(s.records, RoundOf, 0);
    TimesIsProduct(cfg.numClients, 0);
    TimesIsProduct(cfg.numClients, 1);
  }

  lemma InitCandidates(cfg: Config)
    requires ValidConfig(cfg)
    ensures CandidatesOk(cfg, Init(cfg))
  {
    var s := Init(cfg);
    FirstInputs(cfg);
    forall pos | Used(cfg, s, pos) ensures exists c | 0 <= c < |s.traces| :: pos in s.traces[c].inputs {
      assert s.traces[pos].inputs[0] == pos;
    }
  }

  /** Every step any of the threads can take keeps the invariant. */
  lemma InvStep(cfg: Config, s: State, e: Event)
    requires Inv(cfg, s) && Enabled(cfg, s, e)
    ensures Inv(cfg, Step(cfg, s, e)) && WellFormed(cfg, Step(cfg, s, e))
  {
    hide Located, ClientsOk, MessagesOk, CountersOk, WindowOk, CandidatesOk, ValidConfig;
    CandidatesKept(cfg, s, e);
    CountersStep(cfg, s, e);
    if Subject(cfg, s, e) < 0 {
      IdleLocated(s, Step(cfg, s, e));
      IdleStep(cfg, s, e);
    } else {
      ClientsStep(cfg, s, e);
      MessagesStep(cfg, s, e);
      SubjectLocated(cfg, s, e);
      WindowStep(cfg, s, e);
    }
  }

  lemma WindowStep(cfg: Config, s: State, e: Event)
    requires WellFormed(cfg, s) && Enabled(cfg, s, e) && WindowOk(cfg, s) && Subject(cfg, s, e) >= 0
    requires !s.handler.Crashed?
    ensures WindowOk(cfg, Step(cfg, s, e))
    ensures Step(cfg, s, e).sender.Exited? ==> s.sender.Exited? && Step(cfg, s, e).progress == s.progress
    ensures Step(cfg, s, e).handler.Crashed? ==> e.Requeue? && s.candidateInputs == []
  {
  }

  lemma CandidatesKept(cfg: Config, s: State, e: Event)
    requires Inv(cfg, s) && Enabled(cfg, s, e)
    ensures e.Requeue? ==> s.candidateInputs != [] && cfg.numClients + |s.candidateInputs| <= |cfg.inputs|
    ensures e.Requeue? ==> s.candidateInputs == cfg.inputs[cfg.numClients..cfg.numClients + |s.candidateInputs|]
    ensures CandidatesOk(cfg, Step(cfg, s, e))
  {
    hide Located, ClientsOk, MessagesOk, CountersOk, WindowOk, Step;
    if e.Requeue? {
      assert CandidatesOk(cfg, s);
      CandidateLeft(cfg, s);
      CandidatesRequeue(cfg, s);
    } else {
      CandidatesStep(cfg, s, e);
    }
  }

  lemma IdleStep(cfg: Config, s: State, e: Event)
    requires WellFormed(cfg, s) && ClientsOk(cfg, s) && MessagesOk(cfg, s) && WindowOk(cfg, s) && !s.handler.Crashed?
    requires Enabled(cfg, s, e) && Subject(cfg, s, e) < 0
    ensures var s' := Step(cfg, s, e);
            && WellFormed(cfg, s') && ClientsOk(cfg, s') && MessagesOk(cfg, s') && WindowOk(cfg, s')
            && !s'.handler.Crashed? && (s'.sender.Exited? ==> s'.progress == |cfg.inputs|)
  {
  }

  /** A step that only moves the sender on, with empty hands, moves no request. */
  lemma IdleLocated(s: State, s': State)
    requires Located(s) && !s.sender.Sending? && !s'.sender.Sending? && s' == s.(sender := s'.sender)
    ensures Located(s')
  {
    forall place: Place | place != Done ensures Holds(At(s', place), Places(s'.traces), place) {
      assert Holds(At(s, place), Places(s.traces), place);
    }
  }

  lemma SubjectLocated(cfg: Config, s: State, e: Event)
    requires WellFormed(cfg, s) && Located(s) && Enabled(cfg, s, e) && Subject(cfg, s, e) >= 0
    requires e.Requeue? ==> s.candidateInputs != []
    ensures Located(Step(cfg, s, e))
  {
    match e
    case Pop(index) => PopLocated(cfg, s, index);
    case Send => SendLocated(cfg, s);
    case Answer(index, text) => AnswerLocated(cfg, s, index, text);
    case Take => TakeLocated(cfg, s);
    case Count => CountLocated(cfg, s);
    case Requeue => RequeueLocated(cfg, s);
  }

  // ---- every run ----------------------------------------------------------------------------------

  /** The state after a schedule: each event takes place if its thread can take it, and is skipped
      otherwise. Every run of the generator is one of these. */
  ghost function Execute(cfg: Config, s: State, schedule: seq<Event>): (s': State)
    requires Inv(cfg, s)
    ensures Inv(cfg, s')
    decreases |schedule|
  {
    if schedule == [] then s
    else if Enabled(cfg, s, schedule[0]) then
      InvStep(cfg, s, schedule[0]);
      Execute(cfg, Step(cfg, s, schedule[0]), schedule[1..])
    else Execute(cfg, s, schedule[1..])
  }

  /** The steps that move a request on: send, answer, handle. */
  predicate Productive(e: Event) {
    e.Send? || e.Answer? || e.Take?
  }

  ghost function ProductiveSteps(cfg: Config, s: State, schedule: seq<Event>): nat
    requires Inv(cfg, s)
    decreases |schedule|
  {
    if schedule == [] then 0
    else if Enabled(cfg, s, schedule[0]) then
      InvStep(cfg, s, schedule[0]);
      (if Productive(schedule[0]) then 1 else 0)
      + ProductiveSteps(cfg, Step(cfg, s, schedule[0]), schedule[1..])
    else ProductiveSteps(cfg, s, schedule[1..])
  }

  /** Requests sent, answered and handled so far, over all clients. */
  ghost function Done3(s: State): int {
    s.sentRequests + s.progress + Completed(s)
  }

  lemma ProductiveStep(cfg: Config, s: State, e: Event)
    requires WellFormed(cfg, s) && Enabled(cfg, s, e) && !(e.Requeue? && s.candidateInputs == [])
    ensures Done3(Step(cfg, s, e)) == Done3(s) + if Productive(e) then 1 else 0
  {
  }

  lemma {:induction false} ProductiveStepsCounted(cfg: Config, s: State, schedule: seq<Event>)
    requires Inv(cfg, s)
    ensures ProductiveSteps(cfg, s, schedule) == Done3(Execute(cfg, s, schedule)) - Done3(s)
    decreases |schedule|
  {
    hide Located, ClientsOk, MessagesOk, CountersOk, WindowOk, CandidatesOk, ValidConfig,
         Step, Enabled, Done3;
    if schedule != [] {
      if Enabled(cfg, s, schedule[0]) {
        InvStep(cfg, s, schedule[0]);
        CandidatesKept(cfg, s, schedule[0]);
        ProductiveStep(cfg, s, schedule[0]);
        ProductiveStepsCounted(cfg, Step(cfg, s, schedule[0]), schedule[1..]);
      } else {
        ProductiveStepsCounted(cfg, s, schedule[1..]);
      }
    }
  }

  /** Totals per client never exceed the number of rounds. */
  lemma TotalsBounded(cfg: Config, s: State)
    requires Inv(cfg, s)
    ensures 0 <= s.completedRequests <= s.progress <= s.sentRequests <= |cfg.inputs|
    ensures Done3(s) <= 3 * |cfg.inputs|
  {
    hide Located, MessagesOk, WindowOk, CandidatesOk, Transcript;
    forall c | 0 <= c < cfg.numClients
      ensures RoundOf(s.records[c]) <= AnswersOf(s.traces[c]) <= PayloadsOf(s.traces[c]) <= cfg.numRounds
    {
      assert ClientOk(cfg, s.records[c], s.traces[c]);
    }
    SumByBound(s.traces, PayloadsOf, cfg.numRounds);
    SumByCompare(s.traces, AnswersOf, s.traces, PayloadsOf);
    SumByCompare(s.records, RoundOf, s.traces, AnswersOf);
    if s.handler.Counting? {
      SubjectPlace(cfg, s, Count);
      assert ClientOk(cfg, s.records[s.handler.client], s.traces[s.handler.client]);
      SumByPositive(s.records, RoundOf, s.handler.client);
    }
  }

  /** However the threads are scheduled, a run makes at most three productive steps per client
      and round. */
  lemma RunLength(cfg: Config, schedule: seq<Event>)
    requires ValidConfig(cfg)
    ensures Inv(cfg, Init(cfg))
    ensures ProductiveSteps(cfg, Init(cfg), schedule) <= 3 * Times(cfg.numClients, cfg.numRounds)
  {
    hide Located, ClientsOk, MessagesOk, CountersOk, WindowOk, CandidatesOk;
    InvInit(cfg);
    ProductiveStepsCounted(cfg, Init(cfg), schedule);
    TotalsBounded(cfg, Execute(cfg, Init(cfg), schedule));
    FirstInputs(cfg);
  }

  // ---- what holds in every reachable state --------------------------------------------------------

  /** A client's request is in exactly one of the five places, or its conversation is over. */
  lemma OnePlace(cfg: Config, s: State, c: nat)
    requires Inv(cfg, s) && c < cfg.numClients
    ensures (exists i | 0 <= i < |s.readyQueue| :: s.readyQueue[i].client == c) <==> s.traces[c].place == Ready
    ensures (s.sender.Sending? && s.sender.item.client == c) <==> s.traces[c].place == Picked
    ensures (exists i | 0 <= i < |s.inFlight| :: s.inFlight[i].client == c) <==> s.traces[c].place == InFlight
    ensures (exists i | 0 <= i < |s.responseQueue| :: s.responseQueue[i].client == c)
            <==> s.traces[c].place == Answered
    ensures ((s.handler.Counting? || s.handler.Requeueing?) && s.handler.client == c) <==> s.traces[c].place == Handled
    ensures s.traces[c].place == Done ==> s.records[c].round == cfg.numRounds
  {
    hide MessagesOk, CountersOk, WindowOk, CandidatesOk, ValidConfig;
    assert ClientOk(cfg, s.records[c], s.traces[c]);
    forall place: Place | place != Done ensures c in At(s, place) <==> s.traces[c].place == place {
      assert Holds(At(s, place), Places(s.traces), place);
    }
    assert forall i | 0 <= i < |s.readyQueue| :: At(s, Ready)[i] == s.readyQueue[i].client;
    assert forall i | 0 <= i < |s.inFlight| :: At(s, InFlight)[i] == s.inFlight[i].client;
    assert forall i | 0 <= i < |s.responseQueue| :: At(s, Answered)[i] == s.responseQueue[i].client;
    assert c in At(s, Picked) <==> s.sender.Sending? && s.sender.item.client == c;
    assert c in At(s, Handled) <==> (s.handler.Counting? || s.handler.Requeueing?) && s.handler.client == c;
    assert c in At(s, Ready) <==> exists i | 0 <= i < |s.readyQueue| :: s.readyQueue[i].client == c;
    assert c in At(s, InFlight) <==> exists i | 0 <= i < |s.inFlight| :: s.inFlight[i].client == c;
    assert c in At(s, Answered) <==> exists i | 0 <= i < |s.responseQueue| :: s.responseQueue[i].client == c;
  }

  /** No client waits twice in the ready queue, is twice in flight, or has two responses queued. */
  lemma NoDuplicates(cfg: Config, s: State)
    requires Inv(cfg, s)
    ensures forall i, j | 0 <= i < j < |s.readyQueue| :: s.readyQueue[i].client != s.readyQueue[j].client
    ensures forall i, j | 0 <= i < j < |s.inFlight| :: s.inFlight[i].client != s.inFlight[j].client
    ensures forall i, j | 0 <= i < j < |s.responseQueue| :: s.responseQueue[i].client != s.responseQueue[j].client
  {
    hide MessagesOk, CountersOk, WindowOk, CandidatesOk, ValidConfig, ClientsOk;
    assert Holds(At(s, Ready), Places(s.traces), Ready);
    assert Holds(At(s, InFlight), Places(s.traces), InFlight);
    assert Holds(At(s, Answered), Places(s.traces), Answered);
    assert forall i | 0 <= i < |s.readyQueue| :: At(s, Ready)[i] == s.readyQueue[i].client;
    assert forall i | 0 <= i < |s.inFlight| :: At(s, InFlight)[i] == s.inFlight[i].client;
    assert forall i | 0 <= i < |s.responseQueue| :: At(s, Answered)[i] == s.responseQueue[i].client;
  }

  /** The window: unanswered requests, with those the handler has yet to count, fit `maxParallel`. */
  lemma WindowHolds(cfg: Config, schedule: seq<Event>)
    requires ValidConfig(cfg)
    ensures Inv(cfg, Init(cfg))
    ensures var s := Execute(cfg, Init(cfg), schedule);
            && 0 <= s.sentRequests - s.completedRequests <= cfg.maxParallel
            && !s.handler.Crashed?
  {
    hide Located, ClientsOk, MessagesOk, CountersOk, CandidatesOk, ValidConfig;
    InvInit(cfg);
    TotalsBounded(cfg, Execute(cfg, Init(cfg), schedule));
  }

  /** The conversation law: the request of turn `k + 1` is the request of turn `k`, the answer to
      it, and one fresh candidate input; that of turn 0 is the client's own first input. */
  lemma PayloadExtends(cfg: Config, s: State, c: nat, k: nat)
    requires Inv(cfg, s) && c < cfg.numClients && k < |s.traces[c].payloads|
    ensures k < |s.traces[c].inputs| && s.traces[c].inputs[k] < |cfg.inputs| && k <= |s.traces[c].answers|
    ensures s.traces[c].payloads[k]
            == (if k == 0 then "" else s.traces[c].payloads[k - 1] + s.traces[c].answers[k - 1])
               + cfg.inputs[s.traces[c].inputs[k]]
  {
    hide Located, MessagesOk, CountersOk, WindowOk, CandidatesOk, ValidConfig;
    var t := s.traces[c];
    assert ClientOk(cfg, s.records[c], t);
    var inputs, answers := t.inputs[..k + 1], t.answers[..k];
    assert inputs[..|inputs| - 1] == t.inputs[..k] && inputs[|inputs| - 1] == t.inputs[k];
    assert t.payloads[k] == Transcript(cfg, t.inputs[..k], answers) + cfg.inputs[t.inputs[k]];
    if k == 0 {
      assert t.inputs[..k] == [];
    } else {
      assert answers[..k - 1] == t.answers[..k - 1] && answers[k - 1] == t.answers[k - 1];
      assert Transcript(cfg, t.inputs[..k], answers) == Transcript(cfg, t.inputs[..k], answers[..k - 1]) + answers[k - 1];
      assert t.payloads[k - 1] == Transcript(cfg, t.inputs[..k], t.answers[..k - 1]);
    }
  }

  /** No candidate input serves two turns, of one client or of two. */
  lemma CandidatesNotShared(cfg: Config, s: State, c: nat, k: nat, d: nat, l: nat)
    requires Inv(cfg, s) && c < cfg.numClients && d < cfg.numClients
    requires k < |s.traces[c].inputs| && l < |s.traces[d].inputs| && s.traces[c].inputs[k] == s.traces[d].inputs[l]
    ensures c == d && k == l
  {
    hide Located, MessagesOk, CountersOk, WindowOk, ClientsOk, ValidConfig;
  }

  // ---- the end of a run ---------------------------------------------------------------------------

  /** When the sender leaves its loop, every client has been sent and answered exactly `numRounds`
      times, and no request is ready, in the sender's hands, or in flight. */
  lemma SenderExit(cfg: Config, s: State)
    requires Inv(cfg, s) && s.sender.Exited?
    ensures s.readyQueue == [] && s.inFlight == []
    ensures forall c | 0 <= c < cfg.numClients ::
              |s.traces[c].payloads| == |s.traces[c].answers| == cfg.numRounds
    ensures s.sentRequests == s.progress == |cfg.inputs|
  {
    AllAnswered(cfg, s);
    TotalsBounded(cfg, s);
    forall c | 0 <= c < cfg.numClients
      ensures s.traces[c].place != Ready && s.traces[c].place != InFlight
      ensures |s.traces[c].payloads| == cfg.numRounds
    {
      assert ClientOk(cfg, s.records[c], s.traces[c]);
    }
    NoneAt(s, Ready);
    NoneAt(s, InFlight);
  }

  lemma AllAnswered(cfg: Config, s: State)
    requires Inv(cfg, s) && s.sender.Exited?
    ensures forall c | 0 <= c < cfg.numClients :: AnswersOf(s.traces[c]) == cfg.numRounds
  {
    hide Located, MessagesOk, WindowOk, CandidatesOk, Transcript;
    forall c | 0 <= c < cfg.numClients ensures AnswersOf(s.traces[c]) <= cfg.numRounds {
      assert ClientOk(cfg, s.records[c], s.traces[c]);
    }
    SumByBound(s.traces, AnswersOf, cfg.numRounds);
  }

  lemma NoneAt(s: State, place: Place)
    requires Located(s) && place != Done && forall c | 0 <= c < |s.traces| :: s.traces[c].place != place
    ensures At(s, place) == []
    ensures place == Ready ==> s.readyQueue == []
    ensures place == InFlight ==> s.inFlight == []
    ensures place == Answered ==> s.responseQueue == []
  {
    assert Holds(At(s, place), Places(s.traces), place);
    if At(s, place) != [] {
      SomeoneAt(At(s, place), Places(s.traces), place);
    }
    match place
    case Ready => assert |s.readyQueue| == |At(s, Ready)|;
    case InFlight => assert |s.inFlight| == |At(s, InFlight)|;
    case Answered => assert |s.responseQueue| == |At(s, Answered)|;
    case _ =>
  }

  /** When every conversation is over, every candidate input has been used, each by one turn. */
  lemma AllCandidatesUsed(cfg: Config, s: State, pos: nat)
    requires Inv(cfg, s) && pos < |cfg.inputs|
    requires forall c | 0 <= c < cfg.numClients :: s.traces[c].place == Done
    ensures s.candidateInputs == []
    ensures exists c | 0 <= c < cfg.numClients :: pos in s.traces[c].inputs
  {
    AllInputsTaken(cfg, s);
    assert Used(cfg, s, pos);
  }

  lemma AllInputsTaken(cfg: Config, s: State)
    requires Inv(cfg, s) && forall c | 0 <= c < cfg.numClients :: s.traces[c].place == Done
    ensures s.candidateInputs == []
  {
    hide Located, MessagesOk, WindowOk, CandidatesOk, Transcript;
    forall c | 0 <= c < cfg.numClients ensures InputsOf(s.traces[c]) == cfg.numRounds {
      assert ClientOk(cfg, s.records[c], s.traces[c]);
    }
    SumByBound(s.traces, InputsOf, cfg.numRounds);
  }

  // ---- progress -----------------------------------------------------------------------------------

  ghost predicate Finished(cfg: Config, s: State) {
    forall c | 0 <= c < |s.records| :: s.records[c].round == cfg.numRounds
  }

  /** The handler has nothing to do: whatever is still open waits for the sender or the server. */
  ghost predicate HandlerIdle(s: State) {
    s.handler.Waiting? && s.responseQueue == []
  }

  /** With an idle handler, every open conversation is ready, picked or in flight. */
  lemma OpenConversations(cfg: Config, s: State)
    requires Inv(cfg, s) && HandlerIdle(s) && !Finished(cfg, s)
    ensures s.readyQueue != [] || s.sender.Sending? || s.inFlight != []
  {
    hide MessagesOk, CountersOk, WindowOk, CandidatesOk, ValidConfig, Transcript;
    var c :| 0 <= c < |s.records| && s.records[c].round != cfg.numRounds;
    assert ClientOk(cfg, s.records[c], s.traces[c]);
    var place := s.traces[c].place;
    assert Holds(At(s, place), Places(s.traces), place);
    assert c in At(s, place);
  }

  /** With an idle handler, the answers received are the rounds played, so not all are in. */
  lemma AnswersOpen(cfg: Config, s: State)
    requires Inv(cfg, s) && HandlerIdle(s) && !Finished(cfg, s)
    ensures s.progress < |cfg.inputs|
    ensures s.inFlight == [] ==> s.sentRequests == s.completedRequests
  {
    hide MessagesOk, WindowOk, CandidatesOk, Transcript;
    forall c | 0 <= c < cfg.numClients
      ensures AnswersOf(s.traces[c]) == RoundOf(s.records[c]) <= cfg.numRounds
      ensures s.inFlight == [] ==> PayloadsOf(s.traces[c]) == RoundOf(s.records[c])
    {
      assert ClientOk(cfg, s.records[c], s.traces[c]);
      assert Holds(At(s, Answered), Places(s.traces), Answered) && Holds(At(s, InFlight), Places(s.traces), InFlight);
      if s.inFlight == [] { assert At(s, InFlight) == []; }
      assert c !in At(s, Answered);
    }
    SumByCompare(s.traces, AnswersOf, s.records, RoundOf);
    SumByBound(s.records, RoundOf, cfg.numRounds);
    if s.inFlight == [] {
      SumByCompare(s.traces, PayloadsOf, s.records, RoundOf);
      SumByCompare(s.records, RoundOf, s.traces, PayloadsOf);
    }
  }

  /** Steps until a productive one is possible. */
  ghost function Distance(s: State): nat {
    if s.handler.Counting? then 6
    else if s.handler.Requeueing? then 5
    else if s.responseQueue != [] then 0
    else match s.sender
      case Sending(_) => 0
      case Popping => if s.readyQueue != [] then 1 else 2
      case Checking => if s.readyQueue != [] then 2 else 3
      case Sleeping => if s.inFlight != [] then 0 else 3
      case Testing => if s.inFlight != [] then 1 else 4
      case Exited => 0
  }

  /** The step that brings the next productive one closer, or is it. */
  ghost function Helpful(s: State): Event {
    if s.handler.Counting? then Count
    else if s.handler.Requeueing? then Requeue
    else if s.responseQueue != [] then Take
    else match s.sender
      case Sending(_) => Send
      case Popping => Pop(0)
      case Checking => Check
      case Sleeping => if s.inFlight != [] then Answer(0, "") else Wake
      case Testing => Test
      case Exited => Test
  }

  lemma HelpfulStep(cfg: Config, s: State)
    requires Inv(cfg, s) && cfg.maxParallel >= 1 && !Finished(cfg, s)
    ensures Enabled(cfg, s, Helpful(s))
    ensures !Productive(Helpful(s)) ==> Distance(Step(cfg, s, Helpful(s))) < Distance(s)
    ensures !Productive(Helpful(s)) ==> !Finished(cfg, Step(cfg, s, Helpful(s)))
  {
    hide Located, MessagesOk, ClientsOk, CountersOk, CandidatesOk, ValidConfig;
    if s.handler.Requeueing? {
      CandidateLeft(cfg, s);
    } else if HandlerIdle(s) {
      OpenConversations(cfg, s);
      AnswersOpen(cfg, s);
    }
    var c :| 0 <= c < |s.records| && s.records[c].round != cfg.numRounds;
    if !Productive(Helpful(s)) {
      assert Step(cfg, s, Helpful(s)).records[c].round == s.records[c].round;
    }
  }

  /** Every event of the schedule can take place at its turn. */
  ghost predicate Possible(cfg: Config, s: State, schedule: seq<Event>)
    requires Inv(cfg, s)
    decreases |schedule|
  {
    schedule == [] ||
    (Enabled(cfg, s, schedule[0]) && (InvStep(cfg, s, schedule[0]);
      Possible(cfg, Step(cfg, s, schedule[0]), schedule[1..])))
  }

  lemma Prepend(cfg: Config, s: State, e: Event, rest: seq<Event>)
    requires Inv(cfg, s) && Enabled(cfg, s, e)
    ensures Inv(cfg, Step(cfg, s, e)) && WellFormed(cfg, Step(cfg, s, e))
    ensures Possible(cfg, s, [e] + rest) <==> Possible(cfg, Step(cfg, s, e), rest)
    ensures Execute(cfg, s, [e] + rest) == Execute(cfg, Step(cfg, s, e), rest)
    ensures ProductiveSteps(cfg, s, [e] + rest)
            == (if Productive(e) then 1 else 0) + ProductiveSteps(cfg, Step(cfg, s, e), rest)
  {
    hide Located, ClientsOk, MessagesOk, CountersOk, WindowOk, CandidatesOk, ValidConfig,
         Step, Enabled, Productive, WellFormed;
    InvStep(cfg, s, e);
    assert ([e] + rest)[0] == e && ([e] + rest)[1..] == rest;
  }

  lemma {:induction false} Chained(cfg: Config, s: State, first: seq<Event>, second: seq<Event>)
    requires Inv(cfg, s) && Possible(cfg, s, first) && Possible(cfg, Execute(cfg, s, first), second)
    ensures Possible(cfg, s, first + second)
    ensures Execute(cfg, s, first + second) == Execute(cfg, Execute(cfg, s, first), second)
    decreases |first|
  {
    hide Located, ClientsOk, MessagesOk, CountersOk, WindowOk, CandidatesOk, ValidConfig,
         Step, Enabled, WellFormed;
    if first == [] {
      assert first + second == second;
    } else {
      var e, rest := first[0], first[1..];
      assert first == [e] + rest && first + second == [e] + (rest + second);
      Prepend(cfg, s, e, rest);
      Prepend(cfg, s, e, rest + second);
      Chained(cfg, Step(cfg, s, e), rest, second);
    }
  }

  /** Given room for one request, the generator never gets stuck: as long as a conversation is
      open, there is a schedule of at most seven steps, each of which some thread can take at its
      turn, that moves a request on. */
  lemma {:induction false} NeverStuck(cfg: Config, s: State) returns (schedule: seq<Event>)
    requires Inv(cfg, s) && cfg.maxParallel >= 1 && !Finished(cfg, s)
    ensures 1 <= |schedule| <= Distance(s) + 1 <= 7
    ensures Possible(cfg, s, schedule) && ProductiveSteps(cfg, s, schedule) > 0
    decreases Distance(s)
  {
    hide Located, ClientsOk, MessagesOk, CountersOk, WindowOk, CandidatesOk, ValidConfig,
         Step, Enabled, Finished, WellFormed;
    var e := Helpful(s);
    HelpfulStep(cfg, s);
    InvStep(cfg, s, e);
    var rest := [];
    if !Productive(e) {
      rest := NeverStuck(cfg, Step(cfg, s, e));
    }
    schedule := [e] + rest;
    Prepend(cfg, s, e, rest);
  }

  /** All rounds are played, and the last one is counted. */
  ghost predicate Closing(cfg: Config, s: State) {
    Finished(cfg, s) && !s.handler.Counting?
  }

  lemma PlacesWhenClosing(cfg: Config, s: State)
    requires Inv(cfg, s) && Closing(cfg, s)
    ensures forall c | 0 <= c < cfg.numClients :: s.traces[c].place == Done
    ensures s.readyQueue == [] && !s.sender.Sending?
  {
    hide MessagesOk, CountersOk, WindowOk, CandidatesOk, ValidConfig, Transcript;
    forall c | 0 <= c < cfg.numClients ensures s.traces[c].place == Done {
      assert ClientOk(cfg, s.records[c], s.traces[c]);
      if s.traces[c].place == Handled {
        OnlyCountedIsHandled(cfg, s, c);
      }
    }
    NoneAt(s, Ready);
    NoneAt(s, Picked);
  }

  /** A client with no rounds left is not requeued, so only the count can be outstanding. */
  lemma OnlyCountedIsHandled(cfg: Config, s: State, c: nat)
    requires Inv(cfg, s) && c < cfg.numClients && s.traces[c].place == Handled && s.records[c].round == cfg.numRounds
    ensures s.handler.Counting?
  {
    hide ClientsOk, CountersOk, WindowOk, CandidatesOk, ValidConfig, Transcript;
    OnePlace(cfg, s, c);
  }

  lemma TotalsWhenClosing(cfg: Config, s: State)
    requires Inv(cfg, s) && Closing(cfg, s)
    ensures s.sentRequests == s.progress == s.completedRequests == |cfg.inputs|
  {
    TotalsBounded(cfg, s);
    hide Located, ClientsOk, MessagesOk, WindowOk, CandidatesOk;
    SumByBound(s.records, RoundOf, cfg.numRounds);
  }

  /** The sender's way out once everything is answered. */
  ghost function ExitStep(s: State): Event {
    match s.sender
    case Popping => Pop(0)
    case Checking => Check
    case Sleeping => Wake
    case _ => Test
  }

  ghost function ExitDistance(s: State): nat {
    match s.sender
    case Sending(_) => 5
    case Sleeping => 4
    case Checking => 3
    case Popping => 2
    case Testing => 1
    case Exited => 0
  }

  lemma ExitStepCloser(cfg: Config, s: State)
    requires Inv(cfg, s) && cfg.maxParallel >= 1 && Closing(cfg, s) && !s.sender.Exited?
    ensures Enabled(cfg, s, ExitStep(s))
    ensures Closing(cfg, Step(cfg, s, ExitStep(s))) && ExitDistance(Step(cfg, s, ExitStep(s))) < ExitDistance(s)
  {
    PlacesWhenClosing(cfg, s);
    TotalsWhenClosing(cfg, s);
    hide Inv;
    OnlySenderMoves(cfg, s);
    StaysFinished(cfg, s, Step(cfg, s, ExitStep(s)));
  }

  lemma OnlySenderMoves(cfg: Config, s: State)
    requires WellFormed(cfg, s) && cfg.maxParallel >= 1 && !s.sender.Exited? && !s.sender.Sending?
    requires s.readyQueue == [] && s.sentRequests == s.completedRequests && s.progress == |cfg.inputs|
    ensures Enabled(cfg, s, ExitStep(s))
    ensures var s' := Step(cfg, s, ExitStep(s));
            s' == s.(sender := s'.sender) && ExitDistance(s') < ExitDistance(s)
  {
  }

  lemma StaysFinished(cfg: Config, s: State, s': State)
    requires s'.records == s.records
    ensures Finished(cfg, s') <==> Finished(cfg, s)
  {
  }

  lemma {:induction false} ReachesExit(cfg: Config, s: State) returns (schedule: seq<Event>)
    requires Inv(cfg, s) && cfg.maxParallel >= 1 && Closing(cfg, s)
    ensures Possible(cfg, s, schedule)
    ensures var end := Execute(cfg, s, schedule); end.sender.Exited? && Closing(cfg, end)
    decreases ExitDistance(s)
  {
    hide Located, ClientsOk, MessagesOk, CountersOk, WindowOk, CandidatesOk, ValidConfig,
         Step, Enabled, WellFormed, Closing;
    schedule := [];
    if !s.sender.Exited? {
      var e := ExitStep(s);
      ExitStepCloser(cfg, s);
      InvStep(cfg, s, e);
      var rest := ReachesExit(cfg, Step(cfg, s, e));
      schedule := [e] + rest;
      Prepend(cfg, s, e, rest);
    }
  }

  /** The handler counts the last response of the run. */
  lemma LastCount(cfg: Config, s: State)
    requires Inv(cfg, s) && Finished(cfg, s) && s.handler.Counting?
    ensures Enabled(cfg, s, Count) && Closing(cfg, Step(cfg, s, Count))
  {
    hide Located, ClientsOk, MessagesOk, CountersOk, WindowOk, CandidatesOk;
  }

  /** From every reachable state there is a schedule, possible step by step, to the sender's exit
      with every client done. */
  lemma {:induction false} RunsToCompletion(cfg: Config, s: State) returns (schedule: seq<Event>)
    requires Inv(cfg, s) && cfg.maxParallel >= 1
    ensures Possible(cfg, s, schedule)
    ensures var end := Execute(cfg, s, schedule);
            end.sender.Exited? && |end.traces| == cfg.numClients
            && forall c | 0 <= c < cfg.numClients :: end.traces[c].place == Done
    decreases 3 * |cfg.inputs| - Done3(s), if s.handler.Counting? then 1 else 0
  {
    TotalsBounded(cfg, s);
    if !Finished(cfg, s) {
      hide Located, ClientsOk, MessagesOk, CountersOk, WindowOk, CandidatesOk, ValidConfig,
           Step, Enabled, WellFormed, Done3;
      var first := NeverStuck(cfg, s);
      ProductiveStepsCounted(cfg, s, first);
      TotalsBounded(cfg, Execute(cfg, s, first));
      var rest := RunsToCompletion(cfg, Execute(cfg, s, first));
      Chained(cfg, s, first, rest);
      schedule := first + rest;
    } else {
      var count := [];
      if s.handler.Counting? {
        LastCount(cfg, s);
        hide Located, ClientsOk, MessagesOk, CountersOk, WindowOk, CandidatesOk, ValidConfig,
             Step, Enabled, WellFormed, Closing;
        Prepend(cfg, s, Count, []);
        count := [Count] + [];
      }
      hide Located, ClientsOk, MessagesOk, CountersOk, WindowOk, CandidatesOk, ValidConfig,
           Step, Enabled, WellFormed, Closing;
      var end := Execute(cfg, s, count);
      assert Closing(cfg, end) && Possible(cfg, s, count);
      var rest := ReachesExit(cfg, end);
      Chained(cfg, s, count, rest);
      schedule := count + rest;
      PlacesWhenClosing(cfg, Execute(cfg, end, rest));
    }
  }

  /** `s'` is what event `e` makes of `s`. */
  ghost predicate Moves(cfg: Config, s: State, e: Event, s': State) {
    WellFormed(cfg, s) && Enabled(cfg, s, e) && s' == Step(cfg, s, e)
  }

  // ---- the program ----------------------------------------------------------------------------------

  /** The generator with its two threads. Each method is one action, between two points where the
      other thread may act; which one runs next is up to the scheduler. */
  class WorkloadGenerator {
    const cfg: Config
    var sentRequests: int
    var completedRequests: int
    var progress: nat
    var candidateInputs: seq<string>
    var readyQueue: seq<Item>
    var inFlight: seq<Item>
    var responseQueue: seq<Response>
    var clientRecords: seq<Record>
    var sender: Sender
    var handler: Handler
    ghost var traces: seq<Trace>

    ghost function View(): State
      reads this
    {
      State(sentRequests, completedRequests, progress, candidateInputs, readyQueue, inFlight, responseQueue,
            clientRecords, sender, handler, traces)
    }

    ghost predicate Valid()
      reads this
    {
      WellFormed(cfg, View()) && Inv(cfg, View())
    }

    constructor (cfg: Config)
      requires ValidConfig(cfg)
      ensures this.cfg == cfg && View() == Init(cfg) && Valid()
    {
      FirstInputs(cfg);
      InvInit(cfg);
      this.cfg := cfg;
      sentRequests, completedRequests, progress := 0, 0, 0;
      readyQueue := seq(cfg.numClients, i requires 0 <= i < cfg.numClients => Item(i, cfg.inputs[i]));
      clientRecords := seq(cfg.numClients, i requires 0 <= i < cfg.numClients => Record(0, cfg.inputs[i]));
      candidateInputs := cfg.inputs[cfg.numClients..];
      inFlight, responseQueue := [], [];
      sender, handler := Checking, Waiting;
      traces := seq(cfg.numClients, i requires 0 <= i < cfg.numClients => Trace(Ready, [], [], [i]));
    }

    /** Sender: is there room in the window? If not, sleep and look again. */
    method SenderCheck()
      requires Valid() && sender.Checking?
      modifies this`sender
      ensures Valid() && Moves(cfg, old(View()), Check, View())
    {
      hide Inv;
      InvStep(cfg, View(), Check);
      if sentRequests - completedRequests < cfg.maxParallel {
        sender := Popping;
      } else {
        sender := Sleeping;
      }
    }

    /** Sender: take the ready request that the queue's policy picks, if there is one. */
    method SenderPop(index: nat)
      requires Valid() && sender.Popping? && (readyQueue != [] ==> index < |readyQueue|)
      modifies this`sender, this`readyQueue, this`traces
      ensures Valid() && Moves(cfg, old(View()), Pop(index), View())
    {
      hide Inv;
      InvStep(cfg, View(), Pop(index));
      if readyQueue != [] {
        var newRequest := readyQueue[index];
        readyQueue := Removed(readyQueue, index);
        traces := traces[newRequest.client := traces[newRequest.client].(place := Picked)];
        sender := Sending(newRequest);
      } else {
        sender := Testing;
      }
    }

    /** Sender: start the request and count it as sent. */
    method SenderSend()
      requires Valid() && sender.Sending?
      modifies this`sender, this`inFlight, this`sentRequests, this`traces
      ensures Valid() && Moves(cfg, old(View()), Send, View())
    {
      hide Inv;
      InvStep(cfg, View(), Send);
      var newRequest := sender.item;
      inFlight := inFlight + [newRequest];
      sentRequests := sentRequests + 1;
      ghost var t := traces[newRequest.client];
      traces := traces[newRequest.client := t.(place := InFlight, payloads := t.payloads + [newRequest.payload])];
      sender := Testing;
    }

    /** Sender: leave the loop once the progress bar is full, otherwise sleep. */
    method SenderTest()
      requires Valid() && sender.Testing?
      modifies this`sender
      ensures Valid() && Moves(cfg, old(View()), Test, View())
    {
      hide Inv;
      InvStep(cfg, View(), Test);
      if progress == |cfg.inputs| {
        sender := Exited;
      } else {
        sender := Sleeping;
      }
    }

    method SenderWake()
      requires Valid() && sender.Sleeping?
      modifies this`sender
      ensures Valid() && Moves(cfg, old(View()), Wake, View())
    {
      hide Inv;
      InvStep(cfg, View(), Wake);
      sender := Checking;
    }

    /** A request in flight is answered while the sender sleeps. */
    method HandleRequest(index: nat, text: string)
      requires Valid() && sender.Sleeping? && index < |inFlight|
      modifies this`inFlight, this`progress, this`responseQueue, this`traces
      ensures Valid() && Moves(cfg, old(View()), Answer(index, text), View())
    {
      hide Inv;
      InvStep(cfg, View(), Answer(index, text));
      var clientId := inFlight[index].client;
      inFlight := Removed(inFlight, index);
      progress := progress + 1;
      responseQueue := responseQueue + [Response(clientId, text)];
      traces := traces[clientId := traces[clientId].(place := Answered, answers := traces[clientId].answers + [text])];
    }

    /** Handler: the oldest response extends its client's history and ends a round. */
    method HandlerTake()
      requires Valid() && handler.Waiting? && responseQueue != []
      modifies this`responseQueue, this`clientRecords, this`handler, this`traces
      ensures Valid() && Moves(cfg, old(View()), Take, View())
    {
      hide Inv;
      InvStep(cfg, View(), Take);
      var response := responseQueue[0];
      responseQueue := responseQueue[1..];
      var record := clientRecords[response.client];
      clientRecords := clientRecords[response.client := Record(record.round + 1, record.history + response.text)];
      traces := traces[response.client := traces[response.client].(place := Handled)];
      handler := Counting(response.client);
    }

    /** Handler: count the response and decide whether the client goes on. */
    method HandlerCount()
      requires Valid() && handler.Counting?
      modifies this`completedRequests, this`handler, this`traces
      ensures Valid() && Moves(cfg, old(View()), Count, View())
    {
      hide Inv;
      InvStep(cfg, View(), Count);
      var clientId := handler.client;
      completedRequests := completedRequests + 1;
      if clientRecords[clientId].round < cfg.numRounds {
        handler := Requeueing(clientId);
      } else {
        handler := Waiting;
        traces := traces[clientId := traces[clientId].(place := Done)];
      }
    }

    /** Handler: extend the history with a fresh input and queue the client's next request. */
    method HandlerRequeue()
      requires Valid() && handler.Requeueing?
      modifies this`candidateInputs, this`clientRecords, this`readyQueue, this`handler, this`traces
      ensures Valid() && Moves(cfg, old(View()), Requeue, View())
    {
      hide Inv;
      InvStep(cfg, View(), Requeue);
      CandidateLeft(cfg, View());
      var clientId, last := handler.client, |candidateInputs| - 1;
      var history := clientRecords[clientId].history + candidateInputs[last];
      candidateInputs := candidateInputs[..last];
      clientRecords := clientRecords[clientId := clientRecords[clientId].(history := history)];
      readyQueue := readyQueue + [Item(clientId, history)];
      ghost var t := traces[clientId];
      traces := traces[clientId := t.(place := Ready, inputs := t.inputs + [cfg.numClients + last])];
      handler := Waiting;
    }
  }
}
