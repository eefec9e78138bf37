/** What a run of the workload generator shows from outside: the requests that go out, the answers
    that come back, and the order in which they are handled. The transcripts follow from this log. */
module MultiTurnLog {
  import opened Arithmetic
  import opened MultiTurn
  import opened Rosters

  datatype Entry =
    | SentOut(client: nat, payload: string)   // a request is put in flight
    | CameBack(client: nat, text: string)     // the server answers it
    | TakenUp(client: nat)                    // the handler turns to the response
    | PutBack(client: nat)                    // the client gets another input

  /** What can be seen of an event: the item it puts in flight, the text that the server gave, and
      whose turn it is. */
  ghost function Seen(cfg: Config, s: State, e: Event): seq<Entry>
    requires WellFormed(cfg, s) && Enabled(cfg, s, e)
  {
    match e
    case Send =>
      var after := Step(cfg, s, e).inFlight;
      if after == [] then [] else [SentOut(after[|after| - 1].client, after[|after| - 1].payload)]
    case Answer(index, text) => [CameBack(s.inFlight[index].client, text)]
    case Take =>
      var handler := Step(cfg, s, e).handler;
      if handler.Counting? then [TakenUp(handler.client)] else []
    case Requeue => [PutBack(s.handler.client)]
    case _ => []
  }

  ghost function Log(cfg: Config, s: State, schedule: seq<Event>): seq<Entry>
    requires Inv(cfg, s)
    decreases |schedule|
  {
    if schedule == [] then []
    else if Enabled(cfg, s, schedule[0]) then
      InvStep(cfg, s, schedule[0]);
      Seen(cfg, s, schedule[0]) + Log(cfg, Step(cfg, s, schedule[0]), schedule[1..])
    else Log(cfg, s, schedule[1..])
  }

  // ---- reading the log --------------------------------------------------------------------------

  /** The answers that client `c` was given. */
  ghost function Texts(log: seq<Entry>, c: nat): seq<string> {
    if log == [] then []
    else
      var x := log[|log| - 1];
      Texts(log[..|log| - 1], c) + if x.CameBack? && x.client == c then [x.text] else []
  }

  /** The requests that went out for client `c`. */
  ghost function Payloads(log: seq<Entry>, c: nat): seq<string> {
    if log == [] then []
    else
      var x := log[|log| - 1];
      Payloads(log[..|log| - 1], c) + if x.SentOut? && x.client == c then [x.payload] else []
  }

  ghost function PutBacks(log: seq<Entry>): nat {
    if log == [] then 0 else PutBacks(log[..|log| - 1]) + if log[|log| - 1].PutBack? then 1 else 0
  }

  /** The candidates that client `c` got after its first: they are handed out from the end of the
      list, to whichever client comes next. */
  ghost function Handed(cfg: Config, log: seq<Entry>, c: nat): seq<int> {
    if log == [] then []
    else
      var front, x := log[..|log| - 1], log[|log| - 1];
      Handed(cfg, front, c) + if x.PutBack? && x.client == c then [|cfg.inputs| - 1 - PutBacks(front)] else []
  }

  /** Whose answers came back, and whose were taken up. */
  ghost function Returned(log: seq<Entry>): seq<nat> {
    if log == [] then []
    else Returned(log[..|log| - 1]) + if log[|log| - 1].CameBack? then [log[|log| - 1].client] else []
  }

  ghost function Taken(log: seq<Entry>): seq<nat> {
    if log == [] then []
    else Taken(log[..|log| - 1]) + if log[|log| - 1].TakenUp? then [log[|log| - 1].client] else []
  }

  // ---- the state agrees with the log --------------------------------------------------------------

  ghost predicate ClientAgrees(cfg: Config, t: Trace, log: seq<Entry>, c: nat) {
    && t.answers == Texts(log, c) && t.payloads == Payloads(log, c)
    && t.inputs == [c] + Handed(cfg, log, c)
  }

  ghost predicate Agrees(cfg: Config, s: State, log: seq<Entry>) {
    && |s.traces| == cfg.numClients
    && (forall c | 0 <= c < cfg.numClients :: ClientAgrees(cfg, s.traces[c], log, c))
    && cfg.numClients + |s.candidateInputs| + PutBacks(log) == |cfg.inputs|
    && Returned(log) == Taken(log) + Responders(s.responseQueue)
  }

  lemma Appended(cfg: Config, log: seq<Entry>, x: Entry, c: nat)
    ensures var longer := log + [x];
            && Texts(longer, c) == Texts(log, c) + (if x.CameBack? && x.client == c then [x.text] else [])
            && Payloads(longer, c) == Payloads(log, c) + (if x.SentOut? && x.client == c then [x.payload] else [])
            && Handed(cfg, longer, c)
               == Handed(cfg, log, c) + (if x.PutBack? && x.client == c then [|cfg.inputs| - 1 - PutBacks(log)] else [])
  {
    assert (log + [x])[..|log|] == log;
  }

  lemma AppendedOrder(log: seq<Entry>, x: Entry)
    ensures var longer := log + [x];
            && PutBacks(longer) == PutBacks(log) + (if x.PutBack? then 1 else 0)
            && Returned(longer) == Returned(log) + (if x.CameBack? then [x.client] else [])
            && Taken(longer) == Taken(log) + (if x.TakenUp? then [x.client] else [])
  {
    assert (log + [x])[..|log|] == log;
  }

  /** What one event does to the trace of the client it is about, by what was seen of it. */
  lemma SeenChange(cfg: Config, s: State, e: Event)
    requires WellFormed(cfg, s) && Enabled(cfg, s, e) && (e.Requeue? ==> s.candidateInputs != [])
    ensures var s' := Step(cfg, s, e);
            && |s'.traces| == cfg.numClients && |Seen(cfg, s, e)| <= 1
            && (forall c | 0 <= c < cfg.numClients ::
                  var t, t' := s.traces[c], s'.traces[c];
                  var seen := Seen(cfg, s, e);
                  && t'.answers
                     == t.answers + (if seen != [] && seen[0].CameBack? && seen[0].client == c then [seen[0].text] else [])
                  && t'.payloads
                     == t.payloads + (if seen != [] && seen[0].SentOut? && seen[0].client == c then [seen[0].payload] else [])
                  && t'.inputs == t.inputs + (if seen != [] && seen[0].PutBack? && seen[0].client == c
                                              then [cfg.numClients + |s.candidateInputs| - 1] else []))
  {
  }

  lemma SeenOrder(cfg: Config, s: State, e: Event)
    requires WellFormed(cfg, s) && Enabled(cfg, s, e) && (e.Requeue? ==> s.candidateInputs != [])
    ensures var s', seen := Step(cfg, s, e), Seen(cfg, s, e);
            && |seen| <= 1
            && |s'.candidateInputs| == |s.candidateInputs| - (if seen != [] && seen[0].PutBack? then 1 else 0)
            && (if seen != [] && seen[0].TakenUp? then [seen[0].client] else []) + Responders(s'.responseQueue)
               == Responders(s.responseQueue) + (if seen != [] && seen[0].CameBack? then [seen[0].client] else [])
  {
  }

  lemma ClientStaysAgreed(cfg: Config, t: Trace, t': Trace, log: seq<Entry>, seen: seq<Entry>, c: nat, pos: int)
    requires ClientAgrees(cfg, t, log, c) && |seen| <= 1 && pos == |cfg.inputs| - 1 - PutBacks(log)
    requires t'.answers == t.answers + if seen != [] && seen[0].CameBack? && seen[0].client == c then [seen[0].text] else []
    requires t'.payloads
             == t.payloads + if seen != [] && seen[0].SentOut? && seen[0].client == c then [seen[0].payload] else []
    requires t'.inputs == t.inputs + if seen != [] && seen[0].PutBack? && seen[0].client == c then [pos] else []
    ensures ClientAgrees(cfg, t', log + seen, c)
  {
    if seen == [] {
      assert log + seen == log;
    } else {
      assert seen == [seen[0]];
      Appended(cfg, log, seen[0], c);
    }
  }

  lemma OrderStaysAgreed(log: seq<Entry>, seen: seq<Entry>, before: seq<nat>, after: seq<nat>)
    requires |seen| <= 1 && Returned(log) == Taken(log) + before
    requires (if seen != [] && seen[0].TakenUp? then [seen[0].client] else []) + after
             == before + if seen != [] && seen[0].CameBack? then [seen[0].client] else []
    ensures Returned(log + seen) == Taken(log + seen) + after
    ensures PutBacks(log + seen) == PutBacks(log) + if seen != [] && seen[0].PutBack? then 1 else 0
  {
    hide Returned, Taken, PutBacks;
    Passed(Returned(log), Taken(log), before, after,
           if seen != [] && seen[0].CameBack? then [seen[0].client] else [],
           if seen != [] && seen[0].TakenUp? then [seen[0].client] else []);
    if seen == [] {
      assert log + seen == log && Returned(log) + [] == Returned(log) && Taken(log) + [] == Taken(log);
    } else {
      assert seen == [seen[0]];
      AppendedOrder(log, seen[0]);
    }
  }

  lemma AgreesStep(cfg: Config, s: State, e: Event, log: seq<Entry>)
    requires Inv(cfg, s) && Enabled(cfg, s, e) && Agrees(cfg, s, log)
    ensures Agrees(cfg, Step(cfg, s, e), log + Seen(cfg, s, e))
  {
    hide Located, ClientsOk, MessagesOk, CountersOk, WindowOk, CandidatesOk, ValidConfig, Step, Enabled, Seen;
    if e.Requeue? {
      RequeueHasCandidate(cfg, s, e);
    }
    SeenChange(cfg, s, e);
    SeenOrder(cfg, s, e);
    hide WellFormed, Responders, ClientAgrees, Returned, Taken, PutBacks;
    var seen, s' := Seen(cfg, s, e), Step(cfg, s, e);
    OrderStaysAgreed(log, seen, Responders(s.responseQueue), Responders(s'.responseQueue));
    forall c | 0 <= c < cfg.numClients ensures ClientAgrees(cfg, s'.traces[c], log + seen, c) {
      ClientStaysAgreed(cfg, s.traces[c], s'.traces[c], log, seen, c, |cfg.inputs| - 1 - PutBacks(log));
    }
  }

  lemma RequeueHasCandidate(cfg: Config, s: State, e: Event)
    requires Inv(cfg, s) && Enabled(cfg, s, e) && e.Requeue?
    ensures s.candidateInputs != []
  {
    hide Located, ClientsOk, MessagesOk, CountersOk, WindowOk, CandidatesOk, ValidConfig;
    CandidateLeft(cfg, s);
  }

  lemma AgreesAtStart(cfg: Config)
    requires ValidConfig(cfg)
    ensures Agrees(cfg, Init(cfg), [])
  {
    FirstInputs(cfg);
  }

  lemma {:induction false} AgreesThroughout(cfg: Config, s: State, schedule: seq<Event>, log: seq<Entry>)
    requires Inv(cfg, s) && Agrees(cfg, s, log)
    ensures Agrees(cfg, Execute(cfg, s, schedule), log + Log(cfg, s, schedule))
    decreases |schedule|
  {
    hide Located, ClientsOk, MessagesOk, CountersOk, WindowOk, CandidatesOk, ValidConfig, Step, Enabled, Agrees, Seen;
    if schedule == [] {
      assert log + [] == log;
    } else if Enabled(cfg, s, schedule[0]) {
      InvStep(cfg, s, schedule[0]);
      AgreesStep(cfg, s, schedule[0], log);
      var next, seen := Step(cfg, s, schedule[0]), Seen(cfg, s, schedule[0]);
      AgreesThroughout(cfg, next, schedule[1..], log + seen);
      assert (log + seen) + Log(cfg, next, schedule[1..]) == log + (seen + Log(cfg, next, schedule[1..]));
    } else {
      AgreesThroughout(cfg, s, schedule[1..], log);
    }
  }

  // ---- every run ------------------------------------------------------------------------------------

  /** Over every run, the records of a client are what the log shows of it, and responses are taken
      up in the order in which they came back. */
  lemma RunAgrees(cfg: Config, schedule: seq<Event>)
    requires ValidConfig(cfg)
    ensures Inv(cfg, Init(cfg))
    ensures Agrees(cfg, Execute(cfg, Init(cfg), schedule), Log(cfg, Init(cfg), schedule))
  {
    InvInit(cfg);
    AgreesAtStart(cfg);
    hide Inv, Agrees;
    AgreesThroughout(cfg, Init(cfg), schedule, []);
    var log := Log(cfg, Init(cfg), schedule);
    assert [] + log == log;
  }

  /** Over every run, the request that goes out for a client's next turn is the one before it, the
      text that the server answered to that, and a fresh candidate; the first is the client's own
      candidate. All of it is read off the log. */
  lemma PayloadsFromLog(cfg: Config, schedule: seq<Event>, c: nat, k: nat)
    requires ValidConfig(cfg) && c < cfg.numClients
    ensures Inv(cfg, Init(cfg))
    ensures var log := Log(cfg, Init(cfg), schedule);
            k < |Payloads(log, c)| ==>
              var pos := if k == 0 then c else if k <= |Handed(cfg, log, c)| then Handed(cfg, log, c)[k - 1] else -1;
              && 0 <= pos < |cfg.inputs| && k <= |Texts(log, c)|
              && Payloads(log, c)[k]
                 == (if k == 0 then "" else Payloads(log, c)[k - 1] + Texts(log, c)[k - 1]) + cfg.inputs[pos]
  {
    RunAgrees(cfg, schedule);
    var s, log := Execute(cfg, Init(cfg), schedule), Log(cfg, Init(cfg), schedule);
    hide Inv, Execute, Log, ClientAgrees;
    assert ClientAgrees(cfg, s.traces[c], log, c);
    PayloadsAgree(cfg, s.traces[c], log, c);
    if k < |Payloads(log, c)| {
      PayloadExtends(cfg, s, c, k);
      CandidateAgrees(cfg, s.traces[c], log, c, k);
    }
  }

  lemma PayloadsAgree(cfg: Config, t: Trace, log: seq<Entry>, c: nat)
    requires ClientAgrees(cfg, t, log, c)
    ensures t.payloads == Payloads(log, c) && t.answers == Texts(log, c)
  {
  }

  lemma CandidateAgrees(cfg: Config, t: Trace, log: seq<Entry>, c: nat, k: nat)
    requires ClientAgrees(cfg, t, log, c) && k < |t.inputs|
    ensures t.inputs[k] == if k == 0 then c else if k <= |Handed(cfg, log, c)| then Handed(cfg, log, c)[k - 1] else -1
  {
  }

  /** The sender starts a ready request whenever there is room in the window, and only then; what
      goes out is the request as it waited in the queue. */
  lemma RoomIsUsed(cfg: Config, s: State, index: nat)
    requires Inv(cfg, s) && s.sender.Checking? && index < |s.readyQueue|
    ensures Possible(cfg, s, [Check, Pop(index), Send]) <==> s.sentRequests - s.completedRequests < cfg.maxParallel
    ensures s.sentRequests - s.completedRequests < cfg.maxParallel ==>
              Log(cfg, s, [Check, Pop(index), Send])
              == [SentOut(s.readyQueue[index].client, s.readyQueue[index].payload)]
  {
    hide Located, ClientsOk, MessagesOk, CountersOk, WindowOk, CandidatesOk, ValidConfig;
    var s1 := Step(cfg, s, Check);
    Prepend(cfg, s, Check, [Pop(index), Send]);
    assert [Check, Pop(index), Send] == [Check] + [Pop(index), Send];
    LogPrepends(cfg, s, Check, [Pop(index), Send]);
    if s.sentRequests - s.completedRequests < cfg.maxParallel {
      var s2 := Step(cfg, s1, Pop(index));
      Prepend(cfg, s1, Pop(index), [Send]);
      Prepend(cfg, s2, Send, []);
      assert [Pop(index), Send] == [Pop(index)] + [Send] && [Send] == [Send] + [];
      LogPrepends(cfg, s1, Pop(index), [Send]);
      LogPrepends(cfg, s2, Send, []);
    }
  }

  lemma LogPrepends(cfg: Config, s: State, e: Event, rest: seq<Event>)
    requires Inv(cfg, s) && Enabled(cfg, s, e)
    ensures Inv(cfg, Step(cfg, s, e)) && WellFormed(cfg, Step(cfg, s, e))
    ensures Log(cfg, s, [e] + rest) == Seen(cfg, s, e) + Log(cfg, Step(cfg, s, e), rest)
  {
    hide Located, ClientsOk, MessagesOk, CountersOk, WindowOk, CandidatesOk, ValidConfig, Step, Enabled, Seen;
    InvStep(cfg, s, e);
    assert ([e] + rest)[0] == e && ([e] + rest)[1..] == rest;
  }
}
