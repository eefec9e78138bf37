/** What a run of the serving benchmark shows from outside: which conversation the main loop takes,
    what each turn sends, and what the server answers. Prompt lengths, messages and the order of the
    queue follow from this log. */
module ServingLog {
  import opened Rosters
  import opened ServingQueue

  datatype Entry =
    | TakenOff(c: nat)                                               // the main loop makes it a task
    | SentTurn(c: nat, messages: seq<Message>, promptLen: nat)       // a turn goes out
    | AnsweredTurn(c: nat, text: string, outputLen: nat)             // the server answers it
    | FailedTurn(c: nat)

  /** What can be seen of an event: which task is new, the messages that go out, and the text and
      length that the server gave. */
  ghost function Seen(cfg: Config, s: State, e: Event): seq<Entry>
    requires WellFormed(cfg, s) && Enabled(cfg, s, e)
  {
    match e
    case Dequeue =>
      var live := Step(cfg, s, e).live;
      if live == [] then [] else [TakenOff(live[|live| - 1])]
    case Acquire(i) =>
      var c, s' := s.live[i], Step(cfg, s, e);
      if c < |s'.conversations| && c < |s'.traces| && s'.traces[c].promptLens != []
      then [SentTurn(c, s'.conversations[c].prevMessages, s'.traces[c].promptLens[|s'.traces[c].promptLens| - 1])]
      else []
    case Succeed(i, text, outputLen) => [AnsweredTurn(s.live[i], text, outputLen)]
    case Fail(i) => [FailedTurn(s.live[i])]
    case TimeOut => []
  }

  ghost function Log(cfg: Config, s: State, schedule: seq<Event>): seq<Entry>
    requires Inv(cfg, s)
    decreases |schedule|
  {
    if schedule == [] then []
    else if Enabled(cfg, s, schedule[0]) then
      InvStep(cfg, s, schedule[0]);
      Seen(cfg, s, schedule[0]) + Log(cfg, Step(cfg, s, schedule[0]), schedule[1..])
    else Log(cfg, s, schedule[1..])
  }

  // ---- reading the log --------------------------------------------------------------------------

  /** The answers that conversation `c` was given. */
  ghost function Answers(log: seq<Entry>, c: nat): seq<Answer> {
    if log == [] then []
    else
      var x := log[|log| - 1];
      Answers(log[..|log| - 1], c) + if x.AnsweredTurn? && x.c == c then [Answer(x.text, x.outputLen)] else []
  }

  datatype Sent = Sent(messages: seq<Message>, promptLen: nat)

  /** The turns that went out for conversation `c`. */
  ghost function Sends(log: seq<Entry>, c: nat): seq<Sent> {
    if log == [] then []
    else
      var x := log[|log| - 1];
      Sends(log[..|log| - 1], c) + if x.SentTurn? && x.c == c then [Sent(x.messages, x.promptLen)] else []
  }

  /** The conversations in the order in which they come to the queue: all of them once at the start,
      and again with every answer that leaves turns to play. */
  ghost function Arrivals(cfg: Config, log: seq<Entry>): seq<nat> {
    if log == [] then seq(|cfg.conversations|, c => c)
    else
      var front, x := log[..|log| - 1], log[|log| - 1];
      Arrivals(cfg, front)
      + if x.AnsweredTurn? && x.c < |cfg.conversations| && |Answers(front, x.c)| + 1 < |cfg.conversations[x.c]|
        then [x.c] else []
  }

  ghost function Departures(log: seq<Entry>): seq<nat> {
    if log == [] then []
    else Departures(log[..|log| - 1]) + if log[|log| - 1].TakenOff? then [log[|log| - 1].c] else []
  }

  // ---- the state agrees with the log --------------------------------------------------------------

  /** Turn `k` carries the whole conversation before it, and its length is that of all earlier
      inputs and answers and of its own input. */
  ghost predicate SendOk(original: seq<Prompt>, answers: seq<Answer>, sent: Sent, k: nat) {
    && k <= |answers| <= |original| && k < |original|
    && sent.messages == Dialogue(original, answers[..k]) + [User(original[k].content)]
    && sent.promptLen == ContextLen(original, answers, k)
  }

  ghost predicate ConvAgrees(original: seq<Prompt>, t: Trace, answers: seq<Answer>, sends: seq<Sent>) {
    && t.answers == answers && |t.promptLens| == |sends|
    && forall k | 0 <= k < |sends| :: SendOk(original, answers, sends[k], k)
  }

  ghost predicate Agrees(cfg: Config, s: State, log: seq<Entry>) {
    && |s.traces| == |cfg.conversations|
    && (forall c | 0 <= c < |s.traces| ::
          ConvAgrees(cfg.conversations[c], s.traces[c], Answers(log, c), Sends(log, c)))
    && Arrivals(cfg, log) == Departures(log) + s.queue
  }

  lemma Appended(cfg: Config, log: seq<Entry>, x: Entry, c: nat)
    ensures var longer := log + [x];
            && Answers(longer, c)
               == Answers(log, c) + (if x.AnsweredTurn? && x.c == c then [Answer(x.text, x.outputLen)] else [])
            && Sends(longer, c)
               == Sends(log, c) + (if x.SentTurn? && x.c == c then [Sent(x.messages, x.promptLen)] else [])
  {
    assert (log + [x])[..|log|] == log;
  }

  lemma AppendedOrder(cfg: Config, log: seq<Entry>, x: Entry)
    ensures var longer := log + [x];
            && Arrivals(cfg, longer) == Arrivals(cfg, log)
                 + (if x.AnsweredTurn? && x.c < |cfg.conversations|
                       && |Answers(log, x.c)| + 1 < |cfg.conversations[x.c]| then [x.c] else [])
            && Departures(longer) == Departures(log) + (if x.TakenOff? then [x.c] else [])
  {
    assert (log + [x])[..|log|] == log;
  }

  /** A further answer changes nothing about the turns already sent. */
  lemma SendStays(original: seq<Prompt>, answers: seq<Answer>, answer: Answer, sent: Sent, k: nat)
    requires SendOk(original, answers, sent, k) && |answers| < |original|
    ensures SendOk(original, answers + [answer], sent, k)
  {
    assert (answers + [answer])[..k] == answers[..k];
    ContextStable(original, answers, answer, k);
  }

  // ---- one step -------------------------------------------------------------------------------------

  /** What a turn sends is what the conversation so far demands. */
  lemma BegunIsSent(original: seq<Prompt>, conv: Conversation, t: Trace)
    requires ConvOk(original, conv, t) && t.phase.Waiting?
    ensures conv.finishedPrompts < |conv.prompts|
    ensures SendOk(original, t.answers, Sent(Begun(conv).prevMessages, PromptLen(conv)), |t.promptLens|)
  {
    LengthsAreContext(original, t.answers, |t.answers|);
    assert t.answers[..|t.answers|] == t.answers;
  }

  /** An entry about something else leaves a conversation in agreement. */
  lemma SilentAgrees(cfg: Config, original: seq<Prompt>, t: Trace, t': Trace, log: seq<Entry>, x: Entry, d: nat)
    requires ConvAgrees(original, t, Answers(log, d), Sends(log, d))
    requires t'.answers == t.answers && t'.promptLens == t.promptLens
    requires x.AnsweredTurn? || x.SentTurn? ==> x.c != d
    ensures ConvAgrees(original, t', Answers(log + [x], d), Sends(log + [x], d))
  {
    hide SendOk;
    Appended(cfg, log, x, d);
    hide Answers, Sends;
    assert Answers(log, d) + [] == Answers(log, d) && Sends(log, d) + [] == Sends(log, d);
  }

  lemma SentAgrees(cfg: Config, original: seq<Prompt>, t: Trace, t': Trace, log: seq<Entry>, x: Entry, d: nat)
    requires ConvAgrees(original, t, Answers(log, d), Sends(log, d)) && x.SentTurn? && x.c == d
    requires t'.answers == t.answers && |t'.promptLens| == |t.promptLens| + 1
    requires SendOk(original, t.answers, Sent(x.messages, x.promptLen), |t.promptLens|)
    ensures ConvAgrees(original, t', Answers(log + [x], d), Sends(log + [x], d))
  {
    hide SendOk;
    Appended(cfg, log, x, d);
    hide Answers, Sends;
    assert Answers(log, d) + [] == Answers(log, d);
  }

  lemma AcquireEffect(cfg: Config, s: State, i: nat)
    requires Inv(cfg, s) && Enabled(cfg, s, Acquire(i))
    ensures var e, c := Acquire(i), s.live[i];
            var s', seen := Step(cfg, s, e), Seen(cfg, s, e);
            && c < |s.traces| == |cfg.conversations| && s'.queue == s.queue
            && |s'.traces| == |s.traces| && (forall d | 0 <= d < |s.traces| && d != c :: s'.traces[d] == s.traces[d])
            && s'.traces[c].answers == s.traces[c].answers
            && |s'.traces[c].promptLens| == |s.traces[c].promptLens| + 1
            && |seen| == 1 && seen[0].SentTurn? && seen[0].c == c
            && SendOk(cfg.conversations[c], s.traces[c].answers, Sent(seen[0].messages, seen[0].promptLen),
                      |s.traces[c].promptLens|)
  {
    hide ValidConfig, RostersOk, CountersOk, TotalTurns, ConvOk, PromptLen, Begun, SendOk;
    var c := s.live[i];
    assert ConvOk(cfg.conversations[c], s.conversations[c], s.traces[c]);
    BegunIsSent(cfg.conversations[c], s.conversations[c], s.traces[c]);
  }

  /** Putting the parts together after one more entry. */
  lemma AgreesAfter(cfg: Config, s: State, s': State, log: seq<Entry>, x: Entry, back: seq<nat>)
    requires Agrees(cfg, s, log) && |s'.traces| == |s.traces|
    requires back == if x.AnsweredTurn? && x.c < |cfg.conversations|
                        && |Answers(log, x.c)| + 1 < |cfg.conversations[x.c]| then [x.c] else []
    requires (if x.TakenOff? then [x.c] else []) + s'.queue == s.queue + back
    requires forall d | 0 <= d < |s.traces| ::
               ConvAgrees(cfg.conversations[d], s'.traces[d], Answers(log + [x], d), Sends(log + [x], d))
    ensures Agrees(cfg, s', log + [x])
  {
    hide Answers, Sends, ConvAgrees;
    AppendedOrder(cfg, log, x);
    hide Arrivals, Departures;
    Passed(Arrivals(cfg, log), Departures(log), s.queue, s'.queue, back, if x.TakenOff? then [x.c] else []);
  }

  lemma AcquireAgrees(cfg: Config, s: State, i: nat, log: seq<Entry>)
    requires Inv(cfg, s) && Enabled(cfg, s, Acquire(i)) && Agrees(cfg, s, log)
    ensures Agrees(cfg, Step(cfg, s, Acquire(i)), log + Seen(cfg, s, Acquire(i)))
  {
    var c := s.live[i];
    hide ValidConfig, RostersOk, ConvsOk, CountersOk, TotalTurns, Step, Seen, Enabled, Arrivals, Departures, SendOk;
    AcquireEffect(cfg, s, i);
    var s', seen := Step(cfg, s, Acquire(i)), Seen(cfg, s, Acquire(i));
    var x := seen[0];
    hide Answers, Sends, ConvAgrees, WellFormed;
    forall d | 0 <= d < |s.traces|
      ensures ConvAgrees(cfg.conversations[d], s'.traces[d], Answers(log + [x], d), Sends(log + [x], d))
    {
      if d == c {
        SentAgrees(cfg, cfg.conversations[d], s.traces[d], s'.traces[d], log, x, d);
      } else {
        SilentAgrees(cfg, cfg.conversations[d], s.traces[d], s'.traces[d], log, x, d);
      }
    }
    assert [] + s'.queue == s.queue + [];
    AgreesAfter(cfg, s, s', log, x, []);
    assert seen == [x];
  }

  /** An answer comes to the conversation it is for; the others have nothing new. */
  lemma AnswerAgrees(original: seq<Prompt>, t: Trace, t': Trace, log: seq<Entry>, c: nat, d: nat, text: string,
                     outputLen: nat, cfg: Config)
    requires ConvAgrees(original, t, Answers(log, d), Sends(log, d))
    requires if c == d then |t.answers| < |original| && t'.answers == t.answers + [Answer(text, outputLen)]
                            && t'.promptLens == t.promptLens
             else t' == t
    ensures var longer := log + [AnsweredTurn(c, text, outputLen)];
            ConvAgrees(original, t', Answers(longer, d), Sends(longer, d))
  {
    hide SendOk;
    Appended(cfg, log, AnsweredTurn(c, text, outputLen), d);
    hide Answers, Sends;
    var sends := Sends(log, d);
    assert sends + [] == sends && Answers(log, d) + [] == Answers(log, d);
    if c == d {
      forall k | 0 <= k < |sends|
        ensures SendOk(original, Answers(log, d) + [Answer(text, outputLen)], sends[k], k)
      {
        SendStays(original, Answers(log, d), Answer(text, outputLen), sends[k], k);
      }
    }
  }

  /** What an answer does to the state, in terms of how many there were before. */
  lemma SucceedEffect(cfg: Config, s: State, i: nat, text: string, outputLen: nat)
    requires Inv(cfg, s) && Enabled(cfg, s, Succeed(i, text, outputLen))
    ensures var s', c := Step(cfg, s, Succeed(i, text, outputLen)), s.live[i];
            && |s.traces| == |cfg.conversations| && |s.traces[c].answers| < |cfg.conversations[c]|
            && s'.queue == s.queue + (if |s.traces[c].answers| + 1 < |cfg.conversations[c]| then [c] else [])
            && |s'.traces| == |s.traces| && (forall d | 0 <= d < |s.traces| && d != c :: s'.traces[d] == s.traces[d])
            && s'.traces[c].answers == s.traces[c].answers + [Answer(text, outputLen)]
            && s'.traces[c].promptLens == s.traces[c].promptLens
  {
    hide ValidConfig, TotalTurns, PromptLen, Begun, Answered;
    var c := s.live[i];
    RoomToRequeue(cfg, s, i);
    hide RostersOk, CountersOk, ConvOk;
    assert ConvOk(cfg.conversations[c], s.conversations[c], s.traces[c]);
    LastTurnByLength(cfg.conversations[c], s.conversations[c], s.traces[c], text, outputLen);
    hide LastTurn;
    assert s.queue + [] == s.queue;
  }

  lemma SucceedAgrees(cfg: Config, s: State, i: nat, text: string, outputLen: nat, log: seq<Entry>)
    requires Inv(cfg, s) && Enabled(cfg, s, Succeed(i, text, outputLen)) && Agrees(cfg, s, log)
    ensures Agrees(cfg, Step(cfg, s, Succeed(i, text, outputLen)), log + Seen(cfg, s, Succeed(i, text, outputLen)))
  {
    hide ValidConfig, RostersOk, ConvsOk, CountersOk, TotalTurns, Step;
    var e, c := Succeed(i, text, outputLen), s.live[i];
    var s', x := Step(cfg, s, e), AnsweredTurn(c, text, outputLen);
    SucceedEffect(cfg, s, i, text, outputLen);
    hide Answers, Sends, Arrivals, Departures, ConvAgrees;
    AnswersAgree(cfg.conversations[c], s.traces[c], Answers(log, c), Sends(log, c));
    forall d | 0 <= d < |s.traces|
      ensures ConvAgrees(cfg.conversations[d], s'.traces[d], Answers(log + [x], d), Sends(log + [x], d))
    {
      AnswerAgrees(cfg.conversations[d], s.traces[d], s'.traces[d], log, c, d, text, outputLen, cfg);
    }
    assert [] + s'.queue == s'.queue;
    AgreesAfter(cfg, s, s', log, x, if |s.traces[c].answers| + 1 < |cfg.conversations[c]| then [c] else []);
  }

  lemma AnswersAgree(original: seq<Prompt>, t: Trace, answers: seq<Answer>, sends: seq<Sent>)
    requires ConvAgrees(original, t, answers, sends)
    ensures t.answers == answers
  {
  }

  lemma LastTurnByLength(original: seq<Prompt>, conv: Conversation, t: Trace, text: string, outputLen: nat)
    requires ConvOk(original, conv, t) && t.phase.Running?
    ensures LastTurn(conv) <==> |t.answers| + 1 == |original|
    ensures |t.answers| < |original|
  {
    AnsweredOk(original, conv, t, text, outputLen);
  }

  lemma OthersEffect(cfg: Config, s: State, e: Event)
    requires Inv(cfg, s) && Enabled(cfg, s, e) && !e.Acquire? && !e.Succeed?
    ensures var s', seen := Step(cfg, s, e), Seen(cfg, s, e);
            && |seen| <= 1 && (seen != [] ==> !seen[0].AnsweredTurn? && !seen[0].SentTurn?)
            && |s'.traces| == |s.traces|
            && (forall d | 0 <= d < |s.traces| ::
                  s'.traces[d].answers == s.traces[d].answers && s'.traces[d].promptLens == s.traces[d].promptLens)
            && s.queue == (if seen != [] && seen[0].TakenOff? then [seen[0].c] else []) + s'.queue
  {
    hide ValidConfig, RostersOk, ConvsOk, CountersOk, TotalTurns;
  }

  lemma OthersAgree(cfg: Config, s: State, e: Event, log: seq<Entry>)
    requires Inv(cfg, s) && Enabled(cfg, s, e) && Agrees(cfg, s, log) && !e.Acquire? && !e.Succeed?
    ensures Agrees(cfg, Step(cfg, s, e), log + Seen(cfg, s, e))
  {
    hide ValidConfig, RostersOk, ConvsOk, CountersOk, TotalTurns, Step, Seen, Enabled, Arrivals, Departures;
    OthersEffect(cfg, s, e);
    var s', seen := Step(cfg, s, e), Seen(cfg, s, e);
    hide Answers, Sends, ConvAgrees, WellFormed;
    if seen == [] {
      assert log + seen == log && [] + s'.queue == s'.queue;
      forall d | 0 <= d < |s.traces|
        ensures ConvAgrees(cfg.conversations[d], s'.traces[d], Answers(log, d), Sends(log, d))
      {
        SameAgrees(cfg.conversations[d], s.traces[d], s'.traces[d], Answers(log, d), Sends(log, d));
      }
    } else {
      var x := seen[0];
      forall d | 0 <= d < |s.traces|
        ensures ConvAgrees(cfg.conversations[d], s'.traces[d], Answers(log + [x], d), Sends(log + [x], d))
      {
        SilentAgrees(cfg, cfg.conversations[d], s.traces[d], s'.traces[d], log, x, d);
      }
      assert s.queue + [] == s.queue;
      AgreesAfter(cfg, s, s', log, x, []);
      assert seen == [x];
    }
  }

  lemma SameAgrees(original: seq<Prompt>, t: Trace, t': Trace, answers: seq<Answer>, sends: seq<Sent>)
    requires ConvAgrees(original, t, answers, sends) && t'.answers == t.answers && t'.promptLens == t.promptLens
    ensures ConvAgrees(original, t', answers, sends)
  {
  }

  lemma AgreesStep(cfg: Config, s: State, e: Event, log: seq<Entry>)
    requires Inv(cfg, s) && Enabled(cfg, s, e) && Agrees(cfg, s, log)
    ensures Agrees(cfg, Step(cfg, s, e), log + Seen(cfg, s, e))
  {
    hide ValidConfig, RostersOk, ConvsOk, CountersOk, TotalTurns, Agrees, Seen, Step, Enabled;
    match e
    case Acquire(i) => AcquireAgrees(cfg, s, i, log);
    case Succeed(i, text, outputLen) => SucceedAgrees(cfg, s, i, text, outputLen, log);
    case _ => OthersAgree(cfg, s, e, log);
  }

  lemma {:induction false} AgreesThroughout(cfg: Config, s: State, schedule: seq<Event>, log: seq<Entry>)
    requires Inv(cfg, s) && Agrees(cfg, s, log)
    ensures Agrees(cfg, Execute(cfg, s, schedule), log + Log(cfg, s, schedule))
    decreases |schedule|
  {
    hide ValidConfig, RostersOk, ConvsOk, CountersOk, TotalTurns, Agrees, Seen, Step, Enabled;
    if schedule == [] {
      assert log + [] == log;
    } else if Enabled(cfg, s, schedule[0]) {
      InvStep(cfg, s, schedule[0]);
      AgreesStep(cfg, s, schedule[0], log);
      var next, seen := Step(cfg, s, schedule[0]), Seen(cfg, s, schedule[0]);
      AgreesThroughout(cfg, next, schedule[1..], log + seen);
      assert (log + seen) + Log(cfg, next, schedule[1..]) == log + (seen + Log(cfg, next, schedule[1..]));
    } else {
      AgreesThroughout(cfg, s, schedule[1..], log);
    }
  }

  // ---- every run ------------------------------------------------------------------------------------

  lemma RunAgrees(cfg: Config, schedule: seq<Event>)
    requires ValidConfig(cfg)
    ensures Inv(cfg, Init(cfg))
    ensures Agrees(cfg, Execute(cfg, Init(cfg), schedule), Log(cfg, Init(cfg), schedule))
  {
    InvInit(cfg);
    assert Agrees(cfg, Init(cfg), []);
    hide Inv, Agrees;
    AgreesThroughout(cfg, Init(cfg), schedule, []);
    var log := Log(cfg, Init(cfg), schedule);
    assert [] + log == log;
  }

  /** Over every run, turn `k` of conversation `c` goes out with all messages before it, user and
      assistant by turns, and with the length of all earlier inputs and of the answers that the
      server gave, plus its own input. All of it is read off the log. */
  lemma SendsFromLog(cfg: Config, schedule: seq<Event>, c: nat)
    requires ValidConfig(cfg) && c < |cfg.conversations|
    ensures Inv(cfg, Init(cfg))
    ensures var log := Log(cfg, Init(cfg), schedule);
            forall k | 0 <= k < |Sends(log, c)| :: SendOk(cfg.conversations[c], Answers(log, c), Sends(log, c)[k], k)
  {
    RunAgrees(cfg, schedule);
    hide Inv, Execute, Log, Answers, Sends;
    var s := Execute(cfg, Init(cfg), schedule);
    assert ConvAgrees(cfg.conversations[c], s.traces[c], Answers(Log(cfg, Init(cfg), schedule), c),
                      Sends(Log(cfg, Init(cfg), schedule), c));
  }

  /** Over every run, the queue holds what has come to it and not yet left, in order: first in,
      first out. */
  lemma QueueFromLog(cfg: Config, schedule: seq<Event>)
    requires ValidConfig(cfg)
    ensures Inv(cfg, Init(cfg))
    ensures var log := Log(cfg, Init(cfg), schedule);
            Arrivals(cfg, log) == Departures(log) + Execute(cfg, Init(cfg), schedule).queue
  {
    RunAgrees(cfg, schedule);
    hide Inv, Execute, Log;
  }

  /** Over every run, a conversation that waits in the queue has the messages and the finished turns
      that the log shows. */
  lemma QueuedFromLog(cfg: Config, schedule: seq<Event>, i: nat)
    requires ValidConfig(cfg)
    ensures Inv(cfg, Init(cfg))
    ensures var s, log := Execute(cfg, Init(cfg), schedule), Log(cfg, Init(cfg), schedule);
            i < |s.queue| ==>
              var c := s.queue[i];
              && c < |cfg.conversations| == |s.conversations|
              && s.conversations[c].finishedPrompts == |Answers(log, c)| == |Sends(log, c)| < |cfg.conversations[c]|
              && s.conversations[c].prevMessages == Dialogue(cfg.conversations[c], Answers(log, c))
              && s.conversations[c].prompts == Updated(cfg.conversations[c], Answers(log, c))
  {
    RunAgrees(cfg, schedule);
    hide ValidConfig, RostersOk, CountersOk, TotalTurns, Execute, Log, Answers, Sends, Dialogue, Updated;
    var s, log := Execute(cfg, Init(cfg), schedule), Log(cfg, Init(cfg), schedule);
    if i < |s.queue| {
      var c := s.queue[i];
      QueuedConversation(cfg, s, i);
      assert ConvOk(cfg.conversations[c], s.conversations[c], s.traces[c]);
      assert ConvAgrees(cfg.conversations[c], s.traces[c], Answers(log, c), Sends(log, c));
    }
  }
}
