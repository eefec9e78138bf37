/** The serving benchmark: conversations wait in a bounded queue, a task issues one turn of a
    conversation under an optional semaphore, and a conversation with turns left goes back to the
    end of the queue. The event loop may run tasks in any order. */
module ServingQueue {
  import opened Arithmetic
  import opened Rosters
  import opened Sums

  datatype Prompt = Prompt(content: string, inputLen: nat, outputLen: nat)
  datatype Message = User(content: string) | Assistant(content: string)

  // ---- one conversation -----------------------------------------------------------------------

  datatype Conversation = Conversation(prompts: seq<Prompt>, prevMessages: seq<Message>, finishedPrompts: nat)

  ghost function Lengths(prompts: seq<Prompt>): nat {
    if prompts == [] then 0
    else Lengths(prompts[..|prompts| - 1]) + prompts[|prompts| - 1].inputLen + prompts[|prompts| - 1].outputLen
  }

  /** The length of the prompt that the next turn sends. */
  ghost function PromptLen(conv: Conversation): nat
    requires conv.finishedPrompts < |conv.prompts|
  {
    Lengths(conv.prompts[..conv.finishedPrompts]) + conv.prompts[conv.finishedPrompts].inputLen
  }

  /** The next turn has been sent. */
  ghost function Begun(conv: Conversation): Conversation
    requires conv.finishedPrompts < |conv.prompts|
  {
    conv.(prevMessages := conv.prevMessages + [User(conv.prompts[conv.finishedPrompts].content)])
  }

  predicate LastTurn(conv: Conversation) {
    conv.finishedPrompts + 1 >= |conv.prompts|
  }

  /** The turn has been answered with `text`, of `outputLen` tokens. */
  ghost function Answered(conv: Conversation, text: string, outputLen: nat): Conversation
    requires conv.finishedPrompts < |conv.prompts|
  {
    var i := conv.finishedPrompts;
    Conversation(conv.prompts[i := conv.prompts[i].(outputLen := outputLen)],
                 conv.prevMessages + [Assistant(text)],
                 if LastTurn(conv) then i else i + 1)
  }

  /** The object that travels through the queue. */
  class RequestFuncInput {
    var prompts: seq<Prompt>
    var prevMessages: seq<Message>
    var finishedPrompts: nat

    ghost function View(): Conversation
      reads this
    {
      Conversation(prompts, prevMessages, finishedPrompts)
    }

    constructor (prompts: seq<Prompt>)
      ensures View() == Conversation(prompts, [], 0)
    {
      this.prompts := prompts;
      prevMessages := [];
      finishedPrompts := 0;
    }

    /** The part of a turn before the request goes out. */
    method BeginTurn() returns (promptLen: nat)
      requires finishedPrompts < |prompts|
      modifies this`prevMessages
      ensures promptLen == PromptLen(old(View()))
      ensures View() == Begun(old(View()))
    {
      var promptIdx := finishedPrompts;
      var prompt := prompts[promptIdx];
      promptLen := 0;
      for i := 0 to promptIdx
        invariant promptLen == Lengths(prompts[..i])
      {
        assert prompts[..i + 1][..i] == prompts[..i];
        promptLen := promptLen + prompts[i].inputLen + prompts[i].outputLen;
      }
      promptLen := promptLen + prompt.inputLen;
      prevMessages := prevMessages + [User(prompt.content)];
    }

    /** The part of a turn after the answer came in; `again` says whether to queue for another. */
    method FinishTurn(generatedText: string, actualOutputLen: nat) returns (again: bool)
      requires finishedPrompts < |prompts|
      modifies this
      ensures View() == Answered(old(View()), generatedText, actualOutputLen)
      ensures again == !LastTurn(old(View()))
    {
      var promptIdx := finishedPrompts;
      prompts := prompts[promptIdx := Prompt(prompts[promptIdx].content, prompts[promptIdx].inputLen, actualOutputLen)];
      promptIdx := promptIdx + 1;
      prevMessages := prevMessages + [Assistant(generatedText)];
      again := promptIdx < |prompts|;
      if again {
        finishedPrompts := promptIdx;
      }
    }
  }

  // ---- queue, tasks and semaphore --------------------------------------------------

  /** A zero `maxConcurrency` means that there is no semaphore. */
  datatype Config = Config(conversations: seq<seq<Prompt>>, maxConcurrency: nat)

  ghost predicate ValidConfig(cfg: Config) {
    |cfg.conversations| >= 1 && forall c | 0 <= c < |cfg.conversations| :: |cfg.conversations[c]| >= 1
  }

  ghost function TurnsOf(prompts: seq<Prompt>): nat { |prompts| }

  /** `num_actual_requests`. */
  ghost function TotalTurns(cfg: Config): nat {
    SumBy(cfg.conversations, TurnsOf)
  }

  datatype Phase = Queued | Waiting | Running | Blocked | Finished | Failed
  datatype Stage = InQueue | Live | Over
  datatype Answer = Answer(text: string, outputLen: nat)

  /** Bookkeeping for the proofs: the turns begun, with their prompt lengths, and the answers. */
  datatype Trace = Trace(phase: Phase, promptLens: seq<nat>, answers: seq<Answer>)

  datatype State = State(
    queue: seq<nat>,
    live: seq<nat>,
    conversations: seq<Conversation>,
    dequeued: nat,
    held: int,
    stopped: bool,
    traces: seq<Trace>)

  datatype Event =
    | Dequeue                                           // main loop: a task for the conversation in front
    | Acquire(i: nat)                                   // a task gets past the semaphore and sends its turn
    | Succeed(i: nat, text: string, outputLen: nat)     // a turn is answered
    | Fail(i: nat)                                      // a turn is rejected or raises
    | TimeOut                                           // main loop: gives up on an empty queue

  function StageOf(phase: Phase): Stage {
    match phase
    case Queued => InQueue
    case Finished => Over
    case Failed => Over
    case _ => Live
  }

  ghost function Stages(traces: seq<Trace>): seq<Stage> {
    seq(|traces|, c requires 0 <= c < |traces| => StageOf(traces[c].phase))
  }

  ghost function Init(cfg: Config): State {
    var n := |cfg.conversations|;
    State(seq(n, c => c), [],
          seq(n, c requires 0 <= c < n => Conversation(cfg.conversations[c], [], 0)),
          0, 0, false, seq(n, _ => Trace(Queued, [], [])))
  }

  ghost predicate WellFormed(cfg: Config, s: State) {
    && |s.conversations| == |s.traces| == |cfg.conversations|
    && (forall i | 0 <= i < |s.queue| :: s.queue[i] < |s.traces|)
    && (forall i | 0 <= i < |s.live| :: s.live[i] < |s.traces|)
    && (forall c | 0 <= c < |s.traces| && StageOf(s.traces[c].phase) != Over ::
          s.conversations[c].finishedPrompts < |s.conversations[c].prompts|)
  }

  ghost predicate Enabled(cfg: Config, s: State, e: Event)
    requires WellFormed(cfg, s)
  {
    match e
    case Dequeue => !s.stopped && s.dequeued < TotalTurns(cfg) && s.queue != []
    case Acquire(i) =>
      i < |s.live| && s.traces[s.live[i]].phase == Waiting && (cfg.maxConcurrency != 0 ==> s.held < cfg.maxConcurrency)
    case Succeed(i, _, _) => i < |s.live| && s.traces[s.live[i]].phase == Running
    case Fail(i) => i < |s.live| && s.traces[s.live[i]].phase == Running
    case TimeOut => !s.stopped && s.dequeued < TotalTurns(cfg) && s.queue == []
  }

  ghost function DoDequeue(s: State): State
    requires s.queue != [] && s.queue[0] < |s.traces|
  {
    var c := s.queue[0];
    s.(queue := s.queue[1..], live := s.live + [c], dequeued := s.dequeued + 1,
       traces := s.traces[c := s.traces[c].(phase := Waiting)])
  }

  ghost function DoAcquire(s: State, i: nat): State
    requires i < |s.live| && s.live[i] < |s.traces| == |s.conversations|
    requires s.conversations[s.live[i]].finishedPrompts < |s.conversations[s.live[i]].prompts|
  {
    var c := s.live[i];
    var t := s.traces[c];
    s.(held := s.held + 1, conversations := s.conversations[c := Begun(s.conversations[c])],
       traces := s.traces[c := t.(phase := Running, promptLens := t.promptLens + [PromptLen(s.conversations[c])])])
  }

  /** A full queue would leave its task waiting, with the semaphore in its hands. */
  ghost function DoSucceed(s: State, i: nat, text: string, outputLen: nat): State
    requires i < |s.live| && s.live[i] < |s.traces| == |s.conversations|
    requires s.conversations[s.live[i]].finishedPrompts < |s.conversations[s.live[i]].prompts|
  {
    var c := s.live[i];
    var conv := s.conversations[c];
    var t := s.traces[c].(answers := s.traces[c].answers + [Answer(text, outputLen)]);
    var s' := s.(conversations := s.conversations[c := Answered(conv, text, outputLen)]);
    if LastTurn(conv) then
      s'.(live := Removed(s.live, i), held := s.held - 1, traces := s.traces[c := t.(phase := Finished)])
    else if |s.queue| < |s.conversations| then
      s'.(queue := s.queue + [c], live := Removed(s.live, i), held := s.held - 1,
          traces := s.traces[c := t.(phase := Queued)])
    else
      s'.(traces := s.traces[c := t.(phase := Blocked)])
  }

  ghost function DoFail(s: State, i: nat): State
    requires i < |s.live| && s.live[i] < |s.traces|
  {
    var c := s.live[i];
    s.(live := Removed(s.live, i), held := s.held - 1, traces := s.traces[c := s.traces[c].(phase := Failed)])
  }

  ghost function Step(cfg: Config, s: State, e: Event): State
    requires WellFormed(cfg, s) && Enabled(cfg, s, e)
  {
    match e
    case Dequeue => DoDequeue(s)
    case Acquire(i) => DoAcquire(s, i)
    case Succeed(i, text, outputLen) => DoSucceed(s, i, text, outputLen)
    case Fail(i) => DoFail(s, i)
    case TimeOut => s.(stopped := true)
  }

  // ---- what every reachable state satisfies -----------------------------------------------------

  /** The alternation of user and assistant messages of the answered turns. */
  ghost function Dialogue(prompts: seq<Prompt>, answers: seq<Answer>): (d: seq<Message>)
    requires |answers| <= |prompts|
    ensures |d| == 2 * |answers|
  {
    if answers == [] then []
    else
      var k := |answers| - 1;
      Dialogue(prompts, answers[..k]) + [User(prompts[k].content), Assistant(answers[k].text)]
  }

  /** The prompts with the requested output lengths of the answered turns replaced by the actual. */
  ghost function Updated(prompts: seq<Prompt>, answers: seq<Answer>): (p: seq<Prompt>)
    requires |answers| <= |prompts|
    ensures |p| == |prompts|
  {
    seq(|prompts|, j requires 0 <= j < |prompts| =>
      if j < |answers| then prompts[j].(outputLen := answers[j].outputLen) else prompts[j])
  }

  /** The whole text up to turn `k`: earlier inputs and actual outputs, and its own input. */
  ghost function ContextLen(prompts: seq<Prompt>, answers: seq<Answer>, k: nat): nat
    requires k <= |answers| <= |prompts| && k < |prompts|
  {
    if k == 0 then prompts[0].inputLen
    else ContextLen(prompts, answers, k - 1) + answers[k - 1].outputLen + prompts[k].inputLen
  }

  ghost predicate ConvOk(original: seq<Prompt>, conv: Conversation, t: Trace) {
    var k := |t.answers|;
    && k <= |original|
    && (if t.phase.Finished? then k == |original| && conv.finishedPrompts + 1 == k
        else conv.finishedPrompts == k < |original|)
    && conv.prompts == Updated(original, t.answers)
    && conv.prevMessages == Dialogue(original, t.answers)
                            + (if t.phase.Running? || t.phase.Failed? then [User(original[k].content)] else [])
    && |t.promptLens| == (if t.phase.Running? || t.phase.Failed? then k + 1 else k)
    && (forall j | 0 <= j < |t.promptLens| :: t.promptLens[j] == ContextLen(original, t.answers, j))
    && !t.phase.Blocked?
  }

  ghost function DequeuedOf(t: Trace): nat {
    |t.answers| + if t.phase.Waiting? || t.phase.Running? || t.phase.Failed? then 1 else 0
  }

  ghost function RunningOf(t: Trace): nat { if t.phase.Running? then 1 else 0 }
  ghost function OpenOf(t: Trace): nat { if StageOf(t.phase) == Over then 0 else 1 }

  ghost predicate CountersOk(cfg: Config, s: State) {
    && s.dequeued == SumBy(s.traces, DequeuedOf)
    && s.held == SumBy(s.traces, RunningOf)
    && |s.queue| + |s.live| == SumBy(s.traces, OpenOf)
    && (cfg.maxConcurrency != 0 ==> s.held <= cfg.maxConcurrency)
  }

  ghost predicate ConvsOk(cfg: Config, s: State) {
    && |s.conversations| == |s.traces| == |cfg.conversations|
    && forall c | 0 <= c < |s.traces| :: ConvOk(cfg.conversations[c], s.conversations[c], s.traces[c])
  }

  ghost predicate RostersOk(s: State) {
    Holds(s.queue, Stages(s.traces), InQueue) && Holds(s.live, Stages(s.traces), Live)
  }

  ghost predicate Inv(cfg: Config, s: State) {
    && ValidConfig(cfg) && WellFormed(cfg, s) && RostersOk(s) && ConvsOk(cfg, s) && CountersOk(cfg, s)
    && (s.stopped ==> s.dequeued < TotalTurns(cfg))
  }

  // ---- one conversation, step by step -------------------------------------------------------------

  lemma {:induction false} LengthsAreContext(original: seq<Prompt>, answers: seq<Answer>, k: nat)
    requires k <= |answers| <= |original| && k < |original|
    ensures Lengths(Updated(original, answers)[..k]) + original[k].inputLen == ContextLen(original, answers, k)
    decreases k
  {
    if k > 0 {
      var updated := Updated(original, answers);
      assert updated[..k][..k - 1] == updated[..k - 1];
      LengthsAreContext(original, answers, k - 1);
    }
  }

  /** Later answers do not change the context of earlier turns. */
  lemma {:induction false} ContextStable(original: seq<Prompt>, answers: seq<Answer>, answer: Answer, k: nat)
    requires k <= |answers| < |original|
    ensures ContextLen(original, answers + [answer], k) == ContextLen(original, answers, k)
    decreases k
  {
    if k > 0 {
      ContextStable(original, answers, answer, k - 1);
    }
  }

  lemma BegunOk(original: seq<Prompt>, conv: Conversation, t: Trace)
    requires ConvOk(original, conv, t) && t.phase.Waiting?
    ensures ConvOk(original, Begun(conv), t.(phase := Running, promptLens := t.promptLens + [PromptLen(conv)]))
  {
    LengthsAreContext(original, t.answers, |t.answers|);
  }

  lemma AnsweredOk(original: seq<Prompt>, conv: Conversation, t: Trace, text: string, outputLen: nat)
    requires ConvOk(original, conv, t) && t.phase.Running?
    ensures LastTurn(conv) <==> |t.answers| + 1 == |original|
    ensures ConvOk(original, Answered(conv, text, outputLen),
                   t.(answers := t.answers + [Answer(text, outputLen)], phase := if LastTurn(conv) then Finished else Queued))
  {
    var answer := Answer(text, outputLen);
    var answers := t.answers + [answer];
    assert answers[..|t.answers|] == t.answers;
    assert Answered(conv, text, outputLen).prompts == Updated(original, answers);
    forall j | 0 <= j < |t.promptLens| ensures t.promptLens[j] == ContextLen(original, answers, j) {
      ContextStable(original, t.answers, answer, j);
    }
  }

  // ---- every step keeps the invariant ---------------------------------------------------------------

  lemma InvInit(cfg: Config)
    requires ValidConfig(cfg)
    ensures Inv(cfg, Init(cfg))
  {
    InitRosters(cfg);
    InitConvs(cfg);
    InitCounters(cfg);
    hide RostersOk, ConvsOk, CountersOk, TotalTurns;
  }

  lemma InitRosters(cfg: Config)
    ensures RostersOk(Init(cfg))
  {
    var s := Init(cfg);
    forall c | 0 <= c < |s.traces| ensures c in s.queue {
      assert s.queue[c] == c;
    }
  }

  lemma InitConvs(cfg: Config)
    requires ValidConfig(cfg)
    ensures ConvsOk(cfg, Init(cfg))
  {
    var s := Init(cfg);
    forall c | 0 <= c < |s.traces| ensures ConvOk(cfg.conversations[c], s.conversations[c], s.traces[c]) {
      assert Updated(cfg.conversations[c], []) == cfg.conversations[c];
    }
  }

  lemma InitCounters(cfg: Config)
    ensures CountersOk(cfg, Init(cfg))
  {
    var s := Init(cfg);
    SumByConstant(s.traces, DequeuedOf, 0);
    SumByConstant(s.traces, RunningOf, 0);
    SumByConstant(s.traces, OpenOf, 1);
    TimesIsProduct(|s.traces|, 0);
    TimesIsProduct(|s.traces|, 1);
  }

  /** Which conversation a step is about. */
  ghost function Subject(cfg: Config, s: State, e: Event): int
    requires WellFormed(cfg, s) && Enabled(cfg, s, e)
  {
    match e
    case Dequeue => s.queue[0]
    case Acquire(i) => s.live[i]
    case Succeed(i, _, _) => s.live[i]
    case Fail(i) => s.live[i]
    case TimeOut => -1
  }

  /** The queue has room for a conversation that comes back: it and its fellows are all different,
      and one of them is not in the queue. So no task ever blocks while it holds the semaphore. */
  lemma QueueHasRoom(cfg: Config, s: State)
    requires WellFormed(cfg, s) && CountersOk(cfg, s)
    ensures |s.queue| + |s.live| <= |s.conversations|
  {
    SumByBound(s.traces, OpenOf, 1);
    TimesIsProduct(|s.traces|, 1);
  }

  lemma RoomToRequeue(cfg: Config, s: State, i: nat)
    requires Inv(cfg, s) && i < |s.live|
    ensures |s.queue| < |s.conversations|
  {
    QueueHasRoom(cfg, s);
  }

  lemma PhaseOfSubject(cfg: Config, s: State, e: Event)
    requires WellFormed(cfg, s) && RostersOk(s) && Enabled(cfg, s, e) && !e.TimeOut?
    requires ConvsOk(cfg, s)
    ensures 0 <= Subject(cfg, s, e) < |s.traces|
    ensures s.traces[Subject(cfg, s, e)].phase
            == match e case Dequeue => Queued case Acquire(_) => Waiting case _ => Running
  {
    if e.Dequeue? {
      assert Stages(s.traces)[s.queue[0]] == InQueue;
    }
  }

  lemma RostersStep(cfg: Config, s: State, e: Event)
    requires WellFormed(cfg, s) && RostersOk(s) && ConvsOk(cfg, s) && Enabled(cfg, s, e)
    requires e.Succeed? ==> |s.queue| < |s.conversations|
    ensures RostersOk(Step(cfg, s, e))
  {
    if !e.TimeOut? {
      PhaseOfSubject(cfg, s, e);
      hide ConvsOk, WellFormed;
      var s', c := Step(cfg, s, e), Subject(cfg, s, e);
      var stages, to := Stages(s.traces), StageOf(s'.traces[c].phase);
      assert Stages(s'.traces) == stages[c := to];
      if e.Dequeue? {
        assert s'.queue == Removed(s.queue, 0);
        MoveOut(s.queue, stages, InQueue, 0, Live);
        MoveIn(s.live, stages, Live, c);
      } else {
        if to != Live { MoveOut(s.live, stages, Live, e.i, to); } else { StayPut(s.live, stages, Live, c, to); }
        if to == InQueue { MoveIn(s.queue, stages, InQueue, c); } else { StayPut(s.queue, stages, InQueue, c, to); }
      }
    }
  }

  lemma ConvsStep(cfg: Config, s: State, e: Event)
    requires WellFormed(cfg, s) && RostersOk(s) && ConvsOk(cfg, s) && Enabled(cfg, s, e)
    requires e.Succeed? ==> |s.queue| < |s.conversations|
    ensures ConvsOk(cfg, Step(cfg, s, e)) && WellFormed(cfg, Step(cfg, s, e))
  {
    ConvsKept(cfg, s, e);
    WellFormedStep(cfg, s, e);
  }

  lemma WellFormedStep(cfg: Config, s: State, e: Event)
    requires WellFormed(cfg, s) && Enabled(cfg, s, e) && ConvsOk(cfg, Step(cfg, s, e))
    ensures WellFormed(cfg, Step(cfg, s, e))
  {
    hide Dialogue, Updated, ContextLen, Begun, Answered, LastTurn, PromptLen, TotalTurns;
    var s' := Step(cfg, s, e);
    forall c | 0 <= c < |s'.traces| && StageOf(s'.traces[c].phase) != Over
      ensures s'.conversations[c].finishedPrompts < |s'.conversations[c].prompts|
    {
      assert ConvOk(cfg.conversations[c], s'.conversations[c], s'.traces[c]);
    }
  }

  lemma ConvsKept(cfg: Config, s: State, e: Event)
    requires WellFormed(cfg, s) && RostersOk(s) && ConvsOk(cfg, s) && Enabled(cfg, s, e)
    requires e.Succeed? ==> |s.queue| < |s.conversations|
    ensures ConvsOk(cfg, Step(cfg, s, e))
  {
    hide RostersOk, Dialogue, Updated, ContextLen, Begun, Answered, LastTurn, PromptLen;
    var s' := Step(cfg, s, e);
    if !e.TimeOut? {
      PhaseOfSubject(cfg, s, e);
      var c := Subject(cfg, s, e);
      match e {
        case Acquire(_) => BegunOk(cfg.conversations[c], s.conversations[c], s.traces[c]);
        case Succeed(_, text, outputLen) =>
          AnsweredOk(cfg.conversations[c], s.conversations[c], s.traces[c], text, outputLen);
        case _ =>
      }
      assert ConvOk(cfg.conversations[c], s'.conversations[c], s'.traces[c]);
      assert forall d | 0 <= d < |s.traces| && d != c ::
          s'.conversations[d] == s.conversations[d] && s'.traces[d] == s.traces[d];
    }
  }

  lemma CountersUpdate(cfg: Config, s: State, s': State, c: nat)
    requires CountersOk(cfg, s) && c < |s.traces| && |s'.traces| == |s.traces|
    requires s'.traces == s.traces[c := s'.traces[c]]
    requires s'.dequeued - s.dequeued == DequeuedOf(s'.traces[c]) - DequeuedOf(s.traces[c])
    requires s'.held - s.held == RunningOf(s'.traces[c]) - RunningOf(s.traces[c])
    requires |s'.queue| + |s'.live| - |s.queue| - |s.live| == OpenOf(s'.traces[c]) - OpenOf(s.traces[c])
    requires cfg.maxConcurrency != 0 ==> s'.held <= cfg.maxConcurrency
    ensures CountersOk(cfg, s')
  {
    SumByUpdate(s.traces, DequeuedOf, c, s'.traces[c]);
    SumByUpdate(s.traces, RunningOf, c, s'.traces[c]);
    SumByUpdate(s.traces, OpenOf, c, s'.traces[c]);
  }

  lemma CountersStep(cfg: Config, s: State, e: Event)
    requires WellFormed(cfg, s) && RostersOk(s) && ConvsOk(cfg, s) && CountersOk(cfg, s) && Enabled(cfg, s, e)
    requires e.Succeed? ==> |s.queue| < |s.conversations|
    ensures CountersOk(cfg, Step(cfg, s, e))
  {
    hide ConvsOk, RostersOk, Begun, Answered, LastTurn, PromptLen;
    if !e.TimeOut? {
      PhaseOfSubject(cfg, s, e);
      CountersUpdate(cfg, s, Step(cfg, s, e), Subject(cfg, s, e));
    }
  }

  lemma InvStep(cfg: Config, s: State, e: Event)
    requires Inv(cfg, s) && Enabled(cfg, s, e)
    ensures Inv(cfg, Step(cfg, s, e)) && WellFormed(cfg, Step(cfg, s, e))
  {
    hide ValidConfig, RostersOk, ConvsOk, CountersOk, ConvOk, TotalTurns;
    QueueHasRoom(cfg, s);
    if e.Succeed? {
      assert |s.live| >= 1;
    }
    RostersStep(cfg, s, e);
    ConvsStep(cfg, s, e);
    CountersStep(cfg, s, e);
  }

  // ---- the program ----------------------------------------------------------------------------------

  /** `s'` is what event `e` makes of `s`. */
  ghost predicate Moves(cfg: Config, s: State, e: Event, s': State) {
    WellFormed(cfg, s) && Enabled(cfg, s, e) && s' == Step(cfg, s, e)
  }

  /** One object per conversation, put into the queue in order. */
  method FillQueue(conversations: seq<seq<Prompt>>) returns (requests: seq<RequestFuncInput>, waiting: seq<nat>)
    ensures |requests| == |conversations| && waiting == seq(|conversations|, c => c)
    ensures forall c | 0 <= c < |requests| ::
              fresh(requests[c]) && requests[c].View() == Conversation(conversations[c], [], 0)
    ensures forall c, d | 0 <= c < d < |requests| :: requests[c] != requests[d]
  {
    requests, waiting := [], [];
    for c := 0 to |conversations|
      invariant |requests| == c && waiting == seq(c, i => i)
      invariant forall i | 0 <= i < c ::
                  fresh(requests[i]) && requests[i].View() == Conversation(conversations[i], [], 0)
      invariant forall i, j | 0 <= i < j < c :: requests[i] != requests[j]
    {
      var request := new RequestFuncInput(conversations[c]);
      requests := requests + [request];
      waiting := waiting + [c];
    }
  }

  /** The benchmark's main loop and its tasks, over the conversation objects they share. Each
      method runs from one suspension point of the event loop to the next. */
  class Benchmark {
    const cfg: Config
    const inputs: seq<RequestFuncInput>
    var queue: seq<nat>
    var live: seq<nat>
    var dequeued: nat
    var held: int
    var stopped: bool
    ghost var traces: seq<Trace>

    ghost function View(): State
      reads this, inputs
    {
      State(queue, live, seq(|inputs|, c requires 0 <= c < |inputs| reads inputs => inputs[c].View()),
            dequeued, held, stopped, traces)
    }

    ghost predicate Valid()
      reads this, inputs
    {
      && (forall c, d | 0 <= c < d < |inputs| :: inputs[c] != inputs[d])
      && WellFormed(cfg, View()) && Inv(cfg, View())
    }

    constructor (cfg: Config)
      requires ValidConfig(cfg)
      ensures this.cfg == cfg && View() == Init(cfg) && Valid()
      ensures forall c | 0 <= c < |inputs| :: fresh(inputs[c])
    {
      InvInit(cfg);
      hide Inv, ValidConfig, TotalTurns;
      var requests, waiting := FillQueue(cfg.conversations);
      this.cfg, inputs, queue, live := cfg, requests, waiting, [];
      dequeued, held, stopped := 0, 0, false;
      traces := Init(cfg).traces;
      new;
      assert View().conversations == Init(cfg).conversations;
      assert View() == Init(cfg);
    }

    /** The main loop takes the conversation in front and makes it a task. */
    method GetRequest()
      requires Valid() && Enabled(cfg, View(), Dequeue)
      modifies this`queue, this`live, this`dequeued, this`traces
      ensures Valid() && Moves(cfg, old(View()), Dequeue, View())
    {
      hide Inv;
      InvStep(cfg, View(), Dequeue);
      var request := queue[0];
      queue := queue[1..];
      live := live + [request];
      dequeued := dequeued + 1;
      traces := traces[request := traces[request].(phase := Waiting)];
      assert View().conversations == old(View()).conversations;
    }

    /** A task gets past the semaphore and sends the next turn of its conversation. */
    method StartTurn(i: nat) returns (promptLen: nat)
      requires Valid() && Enabled(cfg, View(), Acquire(i)) && i < |live| && live[i] < |inputs|
      modifies this`held, this`traces, inputs[live[i]]
      ensures Valid() && Moves(cfg, old(View()), Acquire(i), View())
      ensures live == old(live) && live[i] < |traces| && traces[live[i]].promptLens != []
      ensures var sent := traces[live[i]].promptLens; promptLen == sent[|sent| - 1]
    {
      hide Inv;
      InvStep(cfg, View(), Acquire(i));
      var c := live[i];
      assert View().conversations[c] == inputs[c].View();
      promptLen := inputs[c].BeginTurn();
      held := held + 1;
      ghost var t := traces[c];
      traces := traces[c := t.(phase := Running, promptLens := t.promptLens + [promptLen])];
      assert View().conversations == old(View()).conversations[c := Begun(old(View()).conversations[c])];
    }

    /** A turn is answered: the conversation goes back to the end of the queue, or is over. */
    method EndTurn(i: nat, text: string, outputLen: nat)
      requires Valid() && Enabled(cfg, View(), Succeed(i, text, outputLen)) && i < |live| && live[i] < |inputs|
      modifies this`queue, this`live, this`held, this`traces, inputs[live[i]]
      ensures Valid() && Moves(cfg, old(View()), Succeed(i, text, outputLen), View())
    {
      hide Inv;
      InvStep(cfg, View(), Succeed(i, text, outputLen));
      RoomToRequeue(cfg, View(), i);
      var c := live[i];
      ghost var s := View();
      assert s.conversations[c] == inputs[c].View();
      var again := inputs[c].FinishTurn(text, outputLen);
      assert View().conversations == s.conversations[c := Answered(s.conversations[c], text, outputLen)];
      assert again == !LastTurn(s.conversations[c]);
      live := Removed(live, i);
      held := held - 1;
      ghost var t := traces[c].(answers := traces[c].answers + [Answer(text, outputLen)]);
      if again {
        queue := queue + [c];
        traces := traces[c := t.(phase := Queued)];
      } else {
        traces := traces[c := t.(phase := Finished)];
      }
      hide Answered, LastTurn;
      assert View() == DoSucceed(s, i, text, outputLen);
    }

    /** A turn is rejected or raises: the conversation is over, whatever turns it has left. */
    method FailTurn(i: nat)
      requires Valid() && Enabled(cfg, View(), Fail(i)) && i < |live|
      modifies this`live, this`held, this`traces
      ensures Valid() && Moves(cfg, old(View()), Fail(i), View())
    {
      hide Inv;
      InvStep(cfg, View(), Fail(i));
      var c := live[i];
      live := Removed(live, i);
      held := held - 1;
      traces := traces[c := traces[c].(phase := Failed)];
      assert View().conversations == old(View()).conversations;
    }

    /** The main loop has waited for the queue in vain. */
    method StopWaiting()
      requires Valid() && Enabled(cfg, View(), TimeOut)
      modifies this`stopped
      ensures Valid() && Moves(cfg, old(View()), TimeOut, View())
    {
      hide Inv;
      InvStep(cfg, View(), TimeOut);
      stopped := true;
      assert View().conversations == old(View()).conversations;
    }
  }

  // ---- every run ------------------------------------------------------------------------------------

  /** The state after a schedule; events that are not possible at their turn are skipped. */
  ghost function Execute(cfg: Config, s: State, schedule: seq<Event>): (s': State)
    requires Inv(cfg, s)
    ensures Inv(cfg, s')
    decreases |schedule|
  {
    if schedule == [] then s
    else if Enabled(cfg, s, schedule[0]) then
      InvStep(cfg, s, schedule[0]);
      Execute(cfg, Step(cfg, s, schedule[0]), schedule[1..])
    else Execute(cfg, s, schedule[1..])
  }

  /** No task can go on and the main loop takes no further conversation. */
  ghost predicate Quiet(cfg: Config, s: State)
    requires WellFormed(cfg, s)
  {
    && !Enabled(cfg, s, Dequeue)
    && forall i: nat | i < |s.live| :: !Enabled(cfg, s, Acquire(i)) && !Enabled(cfg, s, Fail(i))
  }

  /** The main loop has ended as well, by its count or by a time-out, so the outputs are there. */
  ghost predicate Ended(cfg: Config, s: State)
    requires WellFormed(cfg, s)
  {
    Quiet(cfg, s) && !Enabled(cfg, s, TimeOut)
  }

  /** Turns that a conversation contributes to the outputs: all of them, or those up to and
      including the one that failed. */
  ghost function OutputsOf(cfg: Config, s: State, c: nat): nat
    requires c < |s.traces| && c < |cfg.conversations|
  {
    if s.traces[c].phase.Failed? then |s.traces[c].answers| + 1 else |cfg.conversations[c]|
  }

  ghost function Itself(k: nat): nat { k }

  ghost function Outputs(cfg: Config, s: State): seq<nat>
    requires |s.traces| == |cfg.conversations|
  {
    seq(|s.traces|, c requires 0 <= c < |s.traces| => OutputsOf(cfg, s, c))
  }

  /** In every reachable state: queued and unfinished conversations fit the queue, no conversation
      has two live tasks or waits while it has one, the semaphore is never overdrawn, and a task
      that holds it is never blocked on the queue. */
  lemma Bounded(cfg: Config, schedule: seq<Event>)
    requires ValidConfig(cfg)
    ensures Inv(cfg, Init(cfg))
    ensures var s := Execute(cfg, Init(cfg), schedule);
            && |s.queue| + |s.live| <= |cfg.conversations|
            && (forall i, j | 0 <= i < j < |s.live| :: s.live[i] != s.live[j])
            && (forall i, j | 0 <= i < |s.queue| && 0 <= j < |s.live| :: s.queue[i] != s.live[j])
            && (cfg.maxConcurrency != 0 ==> s.held <= cfg.maxConcurrency)
            && (forall c | 0 <= c < |s.traces| :: s.traces[c].phase != Blocked)
  {
    hide ValidConfig, Execute;
    InvInit(cfg);
    var s := Execute(cfg, Init(cfg), schedule);
    QueueHasRoom(cfg, s);
    forall i, j | 0 <= i < |s.queue| && 0 <= j < |s.live| ensures s.queue[i] != s.live[j] {
      assert Stages(s.traces)[s.queue[i]] == InQueue && Stages(s.traces)[s.live[j]] == Live;
    }
    forall c | 0 <= c < |s.traces| ensures s.traces[c].phase != Blocked {
      assert ConvOk(cfg.conversations[c], s.conversations[c], s.traces[c]);
    }
  }

  /** A conversation in the queue has played its turns in order: turn `j` was sent with the length
      of everything before it, the messages alternate, and turn `finishedPrompts` is next. */
  lemma QueuedConversation(cfg: Config, s: State, i: nat)
    requires Inv(cfg, s) && i < |s.queue|
    ensures s.queue[i] < |cfg.conversations| == |s.traces|
    ensures var c := s.queue[i];
            var conv, t := s.conversations[c], s.traces[c];
            && conv.finishedPrompts == |t.answers| == |t.promptLens| < |cfg.conversations[c]|
            && |conv.prevMessages| == 2 * conv.finishedPrompts
            && (forall j | 0 <= j < |conv.prevMessages| :: conv.prevMessages[j].User? <==> j % 2 == 0)
            && conv.prevMessages == Dialogue(cfg.conversations[c], t.answers)
            && (forall j | 0 <= j < |t.promptLens| ::
                  t.promptLens[j] == ContextLen(cfg.conversations[c], t.answers, j))
  {
    var c := s.queue[i];
    assert Stages(s.traces)[c] == InQueue;
    assert ConvOk(cfg.conversations[c], s.conversations[c], s.traces[c]);
    DialogueAlternates(cfg.conversations[c], s.traces[c].answers);
  }

  lemma {:induction false} DialogueAlternates(prompts: seq<Prompt>, answers: seq<Answer>)
    requires |answers| <= |prompts|
    ensures forall j | 0 <= j < 2 * |answers| :: Dialogue(prompts, answers)[j].User? <==> j % 2 == 0
  {
    if answers != [] {
      DialogueAlternates(prompts, answers[..|answers| - 1]);
    }
  }

  /** A failure has cost the conversation turns that were still to come. */
  ghost predicate Dropped(cfg: Config, s: State, c: nat)
    requires c < |s.traces| && c < |cfg.conversations|
  {
    s.traces[c].phase.Failed? && OutputsOf(cfg, s, c) < |cfg.conversations[c]|
  }

  /** A conversation cannot have more turns dequeued than it contributes, and it has fewer exactly
      while it waits in the queue or is played. */
  lemma DequeuedOfConversation(cfg: Config, s: State, c: nat)
    requires Inv(cfg, s) && c < |s.traces|
    ensures c < |cfg.conversations| && OutputsOf(cfg, s, c) <= |cfg.conversations[c]|
    ensures s.traces[c].phase.Finished? || s.traces[c].phase.Failed?
            ==> DequeuedOf(s.traces[c]) == OutputsOf(cfg, s, c)
    ensures DequeuedOf(s.traces[c]) <= OutputsOf(cfg, s, c)
    ensures s.traces[c].phase.Queued? ==> DequeuedOf(s.traces[c]) < OutputsOf(cfg, s, c)
  {
    hide ValidConfig, RostersOk, CountersOk, TotalTurns, Dialogue, Updated, ContextLen;
    assert ConvOk(cfg.conversations[c], s.conversations[c], s.traces[c]);
  }

  lemma PhasesAtRest(cfg: Config, s: State, c: nat)
    requires Inv(cfg, s) && s.live == [] && c < |s.traces|
    ensures s.traces[c].phase.Queued? || s.traces[c].phase.Finished? || s.traces[c].phase.Failed?
    ensures s.traces[c].phase.Queued? <==> c in s.queue
  {
    hide ValidConfig, ConvsOk, CountersOk, TotalTurns;
    var stage := Stages(s.traces)[c];
    assert stage != Live;
    assert c in s.queue <==> stage == InQueue;
  }

  /** When everything is at rest, however the main loop came to stop: the turns dequeued are exactly
      the outputs of the conversations, a failure at turn `k` having removed the turns after `k`
      and nothing else, if and only if no conversation is left behind in the queue. */
  lemma OutputsAtRest(cfg: Config, s: State)
    requires Inv(cfg, s) && Quiet(cfg, s)
    ensures s.live == []
    ensures s.dequeued == SumBy(Outputs(cfg, s), Itself) <==> s.queue == []
    ensures s.queue == [] ==> forall c | 0 <= c < |s.traces| :: s.traces[c].phase.Finished? || s.traces[c].phase.Failed?
  {
    LiveAtRest(cfg, s);
    hide ValidConfig, Quiet, Enabled, RostersOk, ConvsOk, DequeuedOf, OutputsOf;
    var outputs := Outputs(cfg, s);
    forall c | 0 <= c < |s.traces| ensures DequeuedOf(s.traces[c]) <= Itself(outputs[c]) {
      DequeuedOfConversation(cfg, s, c);
    }
    if s.queue == [] {
      forall c | 0 <= c < |s.traces|
        ensures s.traces[c].phase.Finished? || s.traces[c].phase.Failed?
        ensures DequeuedOf(s.traces[c]) == Itself(outputs[c])
      {
        PhasesAtRest(cfg, s, c);
        DequeuedOfConversation(cfg, s, c);
      }
      SumByCompare(s.traces, DequeuedOf, outputs, Itself);
      SumByCompare(outputs, Itself, s.traces, DequeuedOf);
    } else {
      var c := s.queue[0];
      PhasesAtRest(cfg, s, c);
      DequeuedOfConversation(cfg, s, c);
      SumByLess(s.traces, DequeuedOf, outputs, Itself, c);
    }
  }

  /** A dropped turn forces the time-out: the count of requests is never reached, so the main loop
      goes on to wait until it gives up. */
  lemma DroppedTurnForcesTimeOut(cfg: Config, s: State, c: nat)
    requires Inv(cfg, s) && c < |s.traces| && c < |cfg.conversations| && Dropped(cfg, s, c)
    ensures s.dequeued < TotalTurns(cfg)
    ensures s.stopped || Enabled(cfg, s, Dequeue) || Enabled(cfg, s, TimeOut)
    ensures Ended(cfg, s) ==> s.stopped
  {
    hide ValidConfig, RostersOk, ConvsOk, DequeuedOf, OutputsOf;
    forall d | 0 <= d < |s.traces| ensures DequeuedOf(s.traces[d]) <= TurnsOf(cfg.conversations[d]) {
      DequeuedOfConversation(cfg, s, d);
    }
    DequeuedOfConversation(cfg, s, c);
    SumByLess(s.traces, DequeuedOf, cfg.conversations, TurnsOf, c);
  }

  /** The sum of the conversation lengths is dequeued if and only if no conversation is left behind
      and no failure has dropped a turn; all turns are answered if and only if, besides, none failed. */
  lemma AllTurnsPlayed(cfg: Config, s: State)
    requires Inv(cfg, s) && Quiet(cfg, s)
    ensures s.dequeued == TotalTurns(cfg)
            <==> s.queue == [] && forall c | 0 <= c < |s.traces| :: !Dropped(cfg, s, c)
    ensures (forall c | 0 <= c < |s.traces| :: |s.traces[c].answers| == |cfg.conversations[c]|)
            <==> s.queue == [] && forall c | 0 <= c < |s.traces| :: !s.traces[c].phase.Failed?
  {
    TurnsDequeued(cfg, s);
    TurnsAnswered(cfg, s);
  }

  lemma TurnsDequeued(cfg: Config, s: State)
    requires Inv(cfg, s) && Quiet(cfg, s)
    ensures s.dequeued == TotalTurns(cfg)
            <==> s.queue == [] && forall c | 0 <= c < |s.traces| :: !Dropped(cfg, s, c)
  {
    OutputsAtRest(cfg, s);
    hide ValidConfig, RostersOk, ConvsOk, Quiet, DequeuedOf;
    if s.queue != [] {
      MainLoopGoesOn(cfg, s);
    } else if c :| 0 <= c < |s.traces| && Dropped(cfg, s, c) {
      DroppedTurnForcesTimeOut(cfg, s, c);
    } else {
      forall c | 0 <= c < |s.traces| ensures Itself(Outputs(cfg, s)[c]) == TurnsOf(cfg.conversations[c]) {
        assert !Dropped(cfg, s, c);
        DequeuedOfConversation(cfg, s, c);
      }
      SumByCompare(Outputs(cfg, s), Itself, cfg.conversations, TurnsOf);
      SumByCompare(cfg.conversations, TurnsOf, Outputs(cfg, s), Itself);
    }
  }

  lemma TurnsAnswered(cfg: Config, s: State)
    requires Inv(cfg, s) && Quiet(cfg, s)
    ensures (forall c | 0 <= c < |s.traces| :: |s.traces[c].answers| == |cfg.conversations[c]|)
            <==> s.queue == [] && forall c | 0 <= c < |s.traces| :: !s.traces[c].phase.Failed?
  {
    LiveAtRest(cfg, s);
    hide ValidConfig, RostersOk, CountersOk, Quiet, Dialogue, Updated, ContextLen;
    forall c | 0 <= c < |s.traces|
      ensures |s.traces[c].answers| == |cfg.conversations[c]| <==> s.traces[c].phase.Finished?
    {
      PhasesAtRest(cfg, s, c);
      assert ConvOk(cfg.conversations[c], s.conversations[c], s.traces[c]);
    }
    forall c | 0 <= c < |s.traces| ensures s.traces[c].phase.Queued? <==> c in s.queue {
      PhasesAtRest(cfg, s, c);
    }
    if s.queue != [] {
      assert s.queue[0] in s.queue;
    }
  }

  /** At the end of a run the time-out has struck if and only if a failure has dropped a turn or a
      conversation came back to the queue after the main loop had given up. */
  lemma TimeOutExactly(cfg: Config, s: State)
    requires Inv(cfg, s) && Ended(cfg, s)
    ensures s.stopped <==> s.queue != [] || exists c | 0 <= c < |s.traces| :: Dropped(cfg, s, c)
  {
    hide ValidConfig, RostersOk, ConvsOk, CountersOk, TotalTurns, Dropped;
    AllTurnsPlayed(cfg, s);
    if s.queue != [] {
      MainLoopGoesOn(cfg, s);
    } else if c :| 0 <= c < |s.traces| && Dropped(cfg, s, c) {
      DroppedTurnForcesTimeOut(cfg, s, c);
    }
  }

  /** A waiting task gets past the semaphore whenever fewer turns are running than it admits, and
      only then. */
  lemma SemaphoreExactly(cfg: Config, s: State, i: nat)
    requires Inv(cfg, s) && i < |s.live| && s.traces[s.live[i]].phase.Waiting?
    ensures Enabled(cfg, s, Acquire(i))
            <==> cfg.maxConcurrency == 0 || SumBy(s.traces, RunningOf) < cfg.maxConcurrency
  {
    hide ValidConfig, RostersOk, ConvsOk;
  }

  lemma LiveAtRest(cfg: Config, s: State)
    requires Inv(cfg, s) && Quiet(cfg, s)
    ensures s.live == []
  {
    if s.live != [] {
      var i := SomeTaskCanMove(cfg, s);
    }
  }

  /** As long as there are tasks, one of them can go on: it holds the semaphore, or nobody does. */
  lemma SomeTaskCanMove(cfg: Config, s: State) returns (i: nat)
    requires Inv(cfg, s) && s.live != []
    ensures i < |s.live| && (Enabled(cfg, s, Acquire(i)) || Enabled(cfg, s, Fail(i)))
  {
    hide ValidConfig;
    forall i | 0 <= i < |s.live| ensures s.traces[s.live[i]].phase.Waiting? || s.traces[s.live[i]].phase.Running? {
      assert Stages(s.traces)[s.live[i]] == Live;
      assert ConvOk(cfg.conversations[s.live[i]], s.conversations[s.live[i]], s.traces[s.live[i]]);
    }
    if j :| 0 <= j < |s.live| && s.traces[s.live[j]].phase.Running? {
      i := j;
    } else {
      i := 0;
      forall c | 0 <= c < |s.traces| ensures RunningOf(s.traces[c]) == 0 {
        assert Stages(s.traces)[c] == StageOf(s.traces[c].phase);
      }
      SumByConstant(s.traces, RunningOf, 0);
      TimesIsProduct(|s.traces|, 0);
    }
  }

  lemma QueueAtRest(cfg: Config, s: State)
    requires Inv(cfg, s) && Quiet(cfg, s) && !s.stopped
    ensures s.queue == []
  {
    if s.queue != [] {
      MainLoopGoesOn(cfg, s);
    }
  }

  /** The main loop does not stop counting before every queued turn is accounted for. */
  lemma MainLoopGoesOn(cfg: Config, s: State)
    requires Inv(cfg, s) && s.queue != []
    ensures s.dequeued < TotalTurns(cfg)
  {
    hide ValidConfig;
    var c := s.queue[0];
    assert Stages(s.traces)[c] == InQueue;
    forall d | 0 <= d < |s.traces| ensures DequeuedOf(s.traces[d]) <= TurnsOf(cfg.conversations[d]) {
      assert ConvOk(cfg.conversations[d], s.conversations[d], s.traces[d]);
    }
    assert ConvOk(cfg.conversations[c], s.conversations[c], s.traces[c]);
    SumByLess(s.traces, DequeuedOf, cfg.conversations, TurnsOf, c);
  }

  // ---- the length of a run --------------------------------------------------------------------------

  ghost function PromptsOf(t: Trace): nat { |t.promptLens| }
  ghost function EndedOf(t: Trace): nat { |t.answers| + if t.phase.Failed? then 1 else 0 }

  /** Steps taken so far: turns dequeued, turns sent, turns ended, and the time-out. */
  ghost function Spent(s: State): int {
    s.dequeued + SumBy(s.traces, PromptsOf) + SumBy(s.traces, EndedOf) + if s.stopped then 1 else 0
  }

  lemma SpentUpdate(s: State, s': State, c: nat)
    requires c < |s.traces| == |s'.traces| && s'.traces == s.traces[c := s'.traces[c]] && s'.stopped == s.stopped
    requires s'.dequeued - s.dequeued + PromptsOf(s'.traces[c]) - PromptsOf(s.traces[c])
             + EndedOf(s'.traces[c]) - EndedOf(s.traces[c]) == 1
    ensures Spent(s') == Spent(s) + 1
  {
    SumByUpdate(s.traces, PromptsOf, c, s'.traces[c]);
    SumByUpdate(s.traces, EndedOf, c, s'.traces[c]);
  }

  /** Every step that takes place is one of those counted. */
  lemma StepSpends(cfg: Config, s: State, e: Event)
    requires Inv(cfg, s) && Enabled(cfg, s, e)
    ensures Spent(Step(cfg, s, e)) == Spent(s) + 1
  {
    hide ValidConfig, ConvOk, CountersOk, Begun, Answered, LastTurn, PromptLen, TotalTurns;
    QueueHasRoom(cfg, s);
    if !e.TimeOut? {
      PhaseOfSubject(cfg, s, e);
      hide RostersOk, ConvsOk, Spent, SumBy;
      SpentUpdate(s, Step(cfg, s, e), Subject(cfg, s, e));
    }
  }

  lemma SpentBounded(cfg: Config, s: State)
    requires Inv(cfg, s)
    ensures 0 <= Spent(s) <= 3 * TotalTurns(cfg) + 1
  {
    hide ValidConfig, RostersOk, Dialogue, Updated, ContextLen;
    forall c | 0 <= c < |s.traces|
      ensures DequeuedOf(s.traces[c]) <= TurnsOf(cfg.conversations[c])
      ensures PromptsOf(s.traces[c]) <= TurnsOf(cfg.conversations[c])
      ensures EndedOf(s.traces[c]) <= TurnsOf(cfg.conversations[c])
    {
      assert ConvOk(cfg.conversations[c], s.conversations[c], s.traces[c]);
    }
    SumByCompare(s.traces, DequeuedOf, cfg.conversations, TurnsOf);
    SumByCompare(s.traces, PromptsOf, cfg.conversations, TurnsOf);
    SumByCompare(s.traces, EndedOf, cfg.conversations, TurnsOf);
  }

  ghost function StepsTaken(cfg: Config, s: State, schedule: seq<Event>): nat
    requires Inv(cfg, s)
    decreases |schedule|
  {
    if schedule == [] then 0
    else if Enabled(cfg, s, schedule[0]) then
      InvStep(cfg, s, schedule[0]);
      1 + StepsTaken(cfg, Step(cfg, s, schedule[0]), schedule[1..])
    else StepsTaken(cfg, s, schedule[1..])
  }

  lemma {:induction false} StepsCounted(cfg: Config, s: State, schedule: seq<Event>)
    requires Inv(cfg, s)
    ensures StepsTaken(cfg, s, schedule) == Spent(Execute(cfg, s, schedule)) - Spent(s)
    decreases |schedule|
  {
    hide ValidConfig, RostersOk, ConvsOk, CountersOk, Step, Enabled, Spent;
    if schedule != [] {
      if Enabled(cfg, s, schedule[0]) {
        InvStep(cfg, s, schedule[0]);
        StepSpends(cfg, s, schedule[0]);
        StepsCounted(cfg, Step(cfg, s, schedule[0]), schedule[1..]);
      } else {
        StepsCounted(cfg, s, schedule[1..]);
      }
    }
  }

  /** However the tasks are scheduled and whatever fails, a run takes at most three steps per turn
      and one time-out. */
  lemma RunLength(cfg: Config, schedule: seq<Event>)
    requires ValidConfig(cfg)
    ensures Inv(cfg, Init(cfg))
    ensures StepsTaken(cfg, Init(cfg), schedule) <= 3 * TotalTurns(cfg) + 1
  {
    hide RostersOk, ConvsOk, CountersOk;
    InvInit(cfg);
    StepsCounted(cfg, Init(cfg), schedule);
    SpentBounded(cfg, Execute(cfg, Init(cfg), schedule));
    SpentBounded(cfg, Init(cfg));
  }

  /** Every event of the schedule can take place at its turn. */
  ghost predicate Possible(cfg: Config, s: State, schedule: seq<Event>)
    requires Inv(cfg, s)
    decreases |schedule|
  {
    schedule == [] ||
    (Enabled(cfg, s, schedule[0]) && (InvStep(cfg, s, schedule[0]);
      Possible(cfg, Step(cfg, s, schedule[0]), schedule[1..])))
  }

  /** Nothing has gone wrong so far. */
  ghost predicate Smooth(s: State) {
    !s.stopped && forall c | 0 <= c < |s.traces| :: !s.traces[c].phase.Failed?
  }

  /** Every turn of every conversation has been dequeued and answered. */
  ghost predicate AllAnswered(cfg: Config, s: State)
    requires |s.traces| == |cfg.conversations|
  {
    && s.dequeued == TotalTurns(cfg)
    && forall c | 0 <= c < |s.traces| :: |s.traces[c].answers| == |cfg.conversations[c]|
  }

  /** Unless the run has ended, something can happen next; and if nothing has gone wrong, something
      that is neither a failure nor a time-out. */
  lemma SomethingHappens(cfg: Config, s: State) returns (e: Event)
    requires Inv(cfg, s) && !Ended(cfg, s)
    ensures Enabled(cfg, s, e) && !e.Fail? && (Smooth(s) ==> !e.TimeOut?)
  {
    hide ValidConfig, RostersOk, ConvsOk, CountersOk, TotalTurns;
    if s.live != [] {
      var i := SomeTaskCanMove(cfg, s);
      e := if Enabled(cfg, s, Acquire(i)) then Acquire(i) else Succeed(i, "", 0);
    } else if Enabled(cfg, s, Dequeue) {
      e := Dequeue;
    } else {
      e := TimeOut;
      AllTurnsPlayed(cfg, s);
    }
  }

  lemma StaysSmooth(cfg: Config, s: State, e: Event)
    requires WellFormed(cfg, s) && Enabled(cfg, s, e) && Smooth(s) && !e.Fail? && !e.TimeOut?
    ensures Smooth(Step(cfg, s, e))
  {
    hide Begun, Answered, LastTurn, PromptLen, TotalTurns;
  }

  /** From every reachable state a run can be brought to its end, step by possible step; if nothing
      has gone wrong so far, to one in which every turn is answered. */
  lemma {:induction false} RunsToEnd(cfg: Config, s: State) returns (schedule: seq<Event>)
    requires Inv(cfg, s)
    ensures Possible(cfg, s, schedule)
    ensures var end := Execute(cfg, s, schedule);
            && Ended(cfg, end)
            && (Smooth(s) ==> Smooth(end) && AllAnswered(cfg, end))
    decreases 3 * TotalTurns(cfg) + 1 - Spent(s)
  {
    hide ValidConfig, RostersOk, ConvsOk, CountersOk, Spent, Step, Smooth, Ended, TotalTurns;
    schedule := [];
    if !Ended(cfg, s) {
      var e := SomethingHappens(cfg, s);
      InvStep(cfg, s, e);
      StepSpends(cfg, s, e);
      SpentBounded(cfg, Step(cfg, s, e));
      if Smooth(s) {
        StaysSmooth(cfg, s, e);
      }
      var rest := RunsToEnd(cfg, Step(cfg, s, e));
      schedule := [e] + rest;
      assert schedule[1..] == rest;
    } else if Smooth(s) {
      SmoothEnd(cfg, s);
    }
  }

  lemma SmoothEnd(cfg: Config, s: State)
    requires Inv(cfg, s) && Ended(cfg, s) && Smooth(s)
    ensures AllAnswered(cfg, s)
  {
    hide ValidConfig, RostersOk, ConvsOk, CountersOk, TotalTurns;
    QueueAtRest(cfg, s);
    AllTurnsPlayed(cfg, s);
  }
}
