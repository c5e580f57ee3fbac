// The guarded event stream: a producer task drives the event source into a
// queue, the guard forwards it to the client, and a heartbeat wraps the guard.
// One action is one stretch of code between two suspension points.
module Stream {
  import opened Prelude
  import opened Sse
  import opened Decimal

  datatype RunUsage = RunUsage(requests: nat, toolCalls: nat, totalTokens: nat)

  datatype Config = Config(maxEvents: int, usage: Option<RunUsage>)

  datatype Failure = Refused(reason: string) | LimitReached(reason: string) | OtherFailure

  // How the event source ends.
  datatype SourceEnd = Finishes | Fails(failure: Failure) | IsCancelled

  datatype Producer = Unstarted | Driving | Ended(end: SourceEnd)

  datatype QueueItem = Put(event: Event) | DoneMark

  // `Suspended` is at a yield; `last` if the guard stops when resumed.
  datatype Phase = Starting | Polling | Waiting | Suspended(last: bool) | Cleaning | Closed | Abandoned

  datatype State = State(
    producer: Producer,
    produced: seq<Event>,
    queue: seq<QueueItem>,
    count: nat,
    frames: seq<Event>,
    error: Option<Event>,
    drained: bool,
    cancelAsked: bool,
    phase: Phase)

  function UsageDetail(usage: Option<RunUsage>): string {
    if usage.None? then ""
    else " (requests=" + Numeral(usage.value.requests) + ", tool_calls=" + Numeral(usage.value.toolCalls)
         + ", total_tokens=" + Numeral(usage.value.totalTokens) + ")"
  }

  function ErrorFor(cfg: Config, failure: Failure): Event {
    match failure
    case Refused(reason) => Error("Tool call refused: " + reason)
    case LimitReached(reason) => Error("Usage limit exceeded: " + reason + UsageDetail(cfg.usage))
    case OtherFailure => Error("An unexpected error occurred")
  }

  const TIMED_OUT := Error("Stream timed out")

  function Start(): State {
    State(Unstarted, [], [], 0, [], None, false, false, Starting)
  }

  datatype Action =
    | Launches                   // the producer task takes its first step
    | Yields(event: Event)       // the source yields, the producer queues
    | Stops(end: SourceEnd)      // the source ends, the producer closes it and marks the queue
    | Resumes                    // the guard is back from its first suspension
    | Polled(connected: bool)
    | Receives                   // the queue hands over an item
    | TimesOut
    | Asked                      // the client takes a frame and asks for the next
    | Interrupted                // cancelled at an await, or closed at a yield
    | ProducerJoined             // the final await of the producer returns

  function Clean(s: State): State {
    s.(phase := Cleaning, cancelAsked := s.cancelAsked || !s.producer.Ended?)
  }

  function Send(s: State, event: Event, last: bool): State {
    s.(frames := s.frames + [event], phase := Suspended(last))
  }

  function SendError(s: State, event: Event): State {
    Send(s.(error := Some(event)), event, true)
  }

  // The guard dequeues one item.
  function Receive(cfg: Config, s: State): State
    requires s.queue != []
  {
    var taken := s.(queue := s.queue[1..]);
    match s.queue[0]
    case Put(event) => Send(taken.(count := s.count + 1), event, s.count + 1 >= cfg.maxEvents)
    case DoneMark =>
      var done := taken.(drained := true);
      if s.producer.Ended? && s.producer.end.Fails? then SendError(done, ErrorFor(cfg, s.producer.end.failure))
      else Clean(done)
  }

  // An action that cannot happen in `s` changes nothing.
  function Apply(cfg: Config, s: State, a: Action): State {
    match a
    case Launches => if s.producer.Unstarted? then s.(producer := Driving) else s
    case Yields(event) =>
      if s.producer.Driving? then s.(produced := s.produced + [event], queue := s.queue + [Put(event)]) else s
    case Stops(end) => if s.producer.Driving? then s.(producer := Ended(end), queue := s.queue + [DoneMark]) else s
    case Resumes => if s.phase.Starting? && !s.producer.Unstarted? then s.(count := 0, phase := Polling) else s
    case Polled(connected) => if !s.phase.Polling? then s else if connected then s.(phase := Waiting) else Clean(s)
    case Receives => if s.phase.Waiting? && s.queue != [] then Receive(cfg, s) else s
    case TimesOut => if s.phase.Waiting? then SendError(s, TIMED_OUT) else s
    case Asked => if !s.phase.Suspended? then s else if s.phase.last then Clean(s) else s.(phase := Polling)
    case Interrupted =>
      if s.phase.Starting? && !s.producer.Unstarted? then s.(phase := Abandoned)
      else if s.phase.Polling? || s.phase.Waiting? || s.phase.Suspended? then Clean(s)
      else s
    case ProducerJoined => if s.phase.Cleaning? && s.producer.Ended? then s.(phase := Closed) else s
  }

  function Run(cfg: Config, actions: seq<Action>): State {
    if actions == [] then Start() else Apply(cfg, Run(cfg, actions[..|actions| - 1]), actions[|actions| - 1])
  }

  /******* The two tasks *******/

  predicate Exited(s: State) {
    s.phase.Closed? || s.phase.Abandoned?
  }

  predicate ForProducer(a: Action) {
    a.Launches? || a.Yields? || a.Stops?
  }

  // The choices that let the guard go on from where it is suspended.
  predicate Wakes(phase: Phase, producer: Producer, queue: seq<QueueItem>, a: Action) {
    match phase
    case Starting => !producer.Unstarted? && (a.Resumes? || a.Interrupted?)
    case Polling => a.Polled? || a.Interrupted?
    case Waiting => (a.Receives? && queue != []) || a.TimesOut? || a.Interrupted?
    case Suspended(_) => a.Asked? || a.Interrupted?
    case Cleaning => producer.Ended? && a.ProducerJoined?
    case Closed => false
    case Abandoned => false
  }

  lemma AsleepUnchanged(cfg: Config, s: State, a: Action)
    requires !ForProducer(a) && !Wakes(s.phase, s.producer, s.queue, a)
    ensures Apply(cfg, s, a) == s
  {
    hide ErrorFor;
  }

  // What the guard does when it is woken in its loop.
  lemma WokenMoves(cfg: Config, s: State, a: Action)
    requires Wakes(s.phase, s.producer, s.queue, a)
    ensures s.phase.Polling? ==>
              Apply(cfg, s, a) == if a.Interrupted? || !a.connected then Clean(s) else s.(phase := Waiting)
    ensures s.phase.Waiting? ==>
              Apply(cfg, s, a) ==
              if a.Interrupted? then Clean(s) else if a.TimesOut? then SendError(s, TIMED_OUT) else Receive(cfg, s)
    ensures s.phase.Suspended? ==>
              Apply(cfg, s, a) == if a.Interrupted? || s.phase.last then Clean(s) else s.(phase := Polling)
  {
    hide Receive;
  }

  lemma RunOn(cfg: Config, schedule: seq<Action>, n: nat)
    requires n < |schedule|
    ensures Run(cfg, schedule[..n + 1]) == Apply(cfg, Run(cfg, schedule[..n]), schedule[n])
  {
    assert schedule[..n + 1][..n] == schedule[..n];
  }

  // The event loop's choices, `schedule`, are taken one by one while both tasks
  // are suspended; each task keeps its own loop. `phase` is where the guard is.
  class Guarded {
    const cfg: Config
    const schedule: seq<Action>
    var next: nat
    var producer: Producer
    var queue: seq<QueueItem>
    var eventCount: nat
    var phase: Phase
    var cancelAsked: bool
    var frames: seq<Event>
    ghost var produced: seq<Event>
    ghost var error: Option<Event>
    ghost var drained: bool

    ghost function View(): State
      reads this
    {
      State(producer, produced, queue, eventCount, frames, error, drained, cancelAsked, phase)
    }

    // The two tasks together have done what the choices taken so far say.
    ghost predicate InStep()
      reads this
    {
      next <= |schedule| && View() == Run(cfg, schedule[..next])
    }

    constructor (cfg: Config, schedule: seq<Action>)
      ensures this.cfg == cfg && this.schedule == schedule && next == 0 && View() == Start() && InStep()
    {
      this.cfg, this.schedule, next := cfg, schedule, 0;
      producer, queue, eventCount, phase, cancelAsked := Unstarted, [], 0, Starting, false;
      produced, frames, error, drained := [], [], None, false;
    }

    // The producer's loop, as far as it gets before the guard's turn.
    method DriveToQueue()
      requires InStep()
      modifies this
      ensures InStep() && next >= old(next) && (next < |schedule| ==> !ForProducer(schedule[next]))
      ensures phase == old(phase) && frames == old(frames) && eventCount == old(eventCount) && drained == old(drained)
      ensures old(queue) <= queue && cancelAsked == old(cancelAsked) && error == old(error)
      ensures old(producer).Ended? ==> producer == old(producer)
    {
      hide Run, Receive;
      while next < |schedule| && ForProducer(schedule[next])
        invariant InStep() && next >= old(next)
        invariant phase == old(phase) && frames == old(frames)
        invariant eventCount == old(eventCount) && drained == old(drained)
        invariant old(queue) <= queue && cancelAsked == old(cancelAsked) && error == old(error)
        invariant old(producer).Ended? ==> producer == old(producer)
        decreases |schedule| - next
      {
        RunOn(cfg, schedule, next);
        match schedule[next] {
          case Launches =>
            if producer.Unstarted? {
              producer := Driving;
            }
          case Yields(event) =>
            if producer.Driving? {
              queue, produced := queue + [Put(event)], produced + [event];
            }
          case Stops(end) =>
            if producer.Driving? {
              queue, producer := queue + [DoneMark], Ended(end);
            }
        }
        next := next + 1;
      }
    }

    // Until the guard is woken, only the producer runs.
    method Suspend() returns (wake: Option<Action>)
      requires InStep()
      modifies this
      ensures phase == old(phase) && frames == old(frames) && eventCount == old(eventCount) && drained == old(drained)
      ensures cancelAsked == old(cancelAsked) && error == old(error) && next >= old(next)
      ensures old(producer).Ended? ==> producer == old(producer)
      ensures wake.None? ==> InStep() && next == |schedule|
      ensures wake.Some? ==>
                && old(next) < next <= |schedule|
                && wake.value == schedule[next - 1] && Wakes(phase, producer, queue, wake.value)
                && Run(cfg, schedule[..next]) == Apply(cfg, View(), wake.value)
    {
      hide Run, Apply;
      while true
        invariant InStep() && next >= old(next)
        invariant phase == old(phase) && frames == old(frames)
        invariant eventCount == old(eventCount) && drained == old(drained)
        invariant cancelAsked == old(cancelAsked) && error == old(error)
        invariant old(producer).Ended? ==> producer == old(producer)
        decreases |schedule| - next
      {
        DriveToQueue();
        if next == |schedule| {
          return None;
        }
        RunOn(cfg, schedule, next);
        var a := schedule[next];
        next := next + 1;
        if Wakes(phase, producer, queue, a) {
          return Some(a);
        }
        AsleepUnchanged(cfg, View(), a);
      }
    }

    // An error of the guard's own is its last frame.
    method TellError(event: Event) returns (leaving: bool)
      requires next <= |schedule| && SendError(View(), event) == Run(cfg, schedule[..next])
      modifies this
      ensures leaving ==> next <= |schedule| && Clean(View()) == Run(cfg, schedule[..next])
      ensures !leaving ==> InStep() && next == |schedule|
      ensures next >= old(next)
    {
      hide Run, Receive, ErrorFor;
      error, frames, phase := Some(event), frames + [event], Suspended(true);
      var wake := Suspend();
      leaving := wake.Some?;
    }

    // An event taken from the queue is the next frame.
    method Forward(event: Event) returns (going: bool, leaving: bool)
      requires next <= |schedule|
      requires Run(cfg, schedule[..next]) ==
               Send(View().(count := eventCount + 1), event, eventCount + 1 >= cfg.maxEvents)
      modifies this
      ensures next >= old(next)
      ensures going ==> InStep() && phase.Polling?
      ensures !going && leaving ==> next <= |schedule| && Clean(View()) == Run(cfg, schedule[..next])
      ensures !going && !leaving ==> InStep() && next == |schedule|
    {
      hide Run, Apply, Clean;
      eventCount := eventCount + 1;
      frames, phase := frames + [event], Suspended(eventCount >= cfg.maxEvents);
      var wake := Suspend();
      if wake.None? {
        return false, false;
      }
      WokenMoves(cfg, View(), wake.value);
      if wake.value.Interrupted? || eventCount >= cfg.maxEvents {
        return false, true;
      }
      phase := Polling;
      return true, false;
    }

    // The `try` block: `leaving` once control is on its way to `finally`.
    method GuardLoop() returns (leaving: bool)
      requires InStep() && phase.Polling?
      modifies this
      ensures leaving ==> next <= |schedule| && Clean(View()) == Run(cfg, schedule[..next])
      ensures !leaving ==> InStep() && next == |schedule|
    {
      hide Run, Apply, Clean, ErrorFor;
      while true
        invariant InStep() && phase.Polling?
        decreases |schedule| - next
      {
        var wake := Suspend();
        if wake.None? {
          return false;
        }
        WokenMoves(cfg, View(), wake.value);
        if wake.value.Interrupted? || !wake.value.connected {
          return true;
        }
        phase := Waiting;
        wake := Suspend();
        if wake.None? {
          return false;
        }
        WokenMoves(cfg, View(), wake.value);
        if wake.value.Interrupted? {
          return true;
        }
        if wake.value.TimesOut? {
          leaving := TellError(TIMED_OUT);
          return;
        }
        var item := queue[0];
        queue := queue[1..];
        if item.DoneMark? {
          drained := true;
          if producer.Ended? && producer.end.Fails? {
            leaving := TellError(ErrorFor(cfg, producer.end.failure));
            return;
          }
          return true;
        }
        var going: bool;
        going, leaving := Forward(item.event);
        if !going {
          return;
        }
      }
    }

    // The `finally` block.
    method Finally()
      requires next <= |schedule| && Clean(View()) == Run(cfg, schedule[..next])
      modifies this
      ensures InStep() && (next == |schedule| || Exited(View()))
    {
      hide Run, Receive, ErrorFor;
      if !producer.Ended? {
        cancelAsked := true;
      }
      phase := Cleaning;
      var wake := Suspend();
      if wake.Some? {
        phase := Closed;
      }
    }

    // The guard from its call to its end, or to where the schedule leaves it.
    method RunWithLifecycleGuards()
      requires next == 0 && View() == Start()
      modifies this
      ensures InStep()
      ensures next == |schedule| || Exited(View())
    {
      assert InStep();
      hide Run, Receive, ErrorFor;
      var wake := Suspend();
      if wake.None? {
        return;
      }
      if wake.value.Interrupted? {
        phase := Abandoned;
        return;
      }
      eventCount, phase := 0, Polling;
      var leaving := GuardLoop();
      if leaving {
        Finally();
      }
    }
  }

  /******* What every run keeps *******/

  function Cap(cfg: Config): nat {
    if cfg.maxEvents < 1 then 1 else cfg.maxEvents
  }

  function Puts(events: seq<Event>): seq<QueueItem> {
    seq(|events|, i requires 0 <= i < |events| => Put(events[i]))
  }

  function Last(error: Option<Event>): seq<Event> {
    if error.Some? then [error.value] else []
  }

  // The queue is what was produced and not yet taken, then the mark of a
  // producer that has finished.
  ghost predicate Queued(s: State) {
    && s.count <= |s.produced|
    && s.queue == Puts(s.produced[s.count..]) + (if s.producer.Ended? && !s.drained then [DoneMark] else [])
    && (s.drained ==> s.producer.Ended? && s.count == |s.produced|)
    && (s.producer.Unstarted? ==> s.phase.Starting? && s.produced == [])
  }

  ghost predicate Forwarded(cfg: Config, s: State) {
    && s.count <= |s.produced|
    && s.frames == s.produced[..s.count] + Last(s.error)
    && |s.frames| <= Cap(cfg)
    && (s.phase.Starting? || s.phase.Abandoned? ==> s.frames == [] && !s.drained)
    && (s.phase.Starting? || s.phase.Polling? || s.phase.Waiting? || s.phase == Suspended(false) ==>
          s.error.None? && s.count < Cap(cfg) && !s.drained)
    && (s.error.Some? && !s.drained ==> s.error == Some(TIMED_OUT))
    && (s.drained && s.producer.Ended? ==>
          s.error == if s.producer.end.Fails? then Some(ErrorFor(cfg, s.producer.end.failure)) else None)
  }

  ghost predicate Tidy(s: State) {
    && (s.phase.Closed? ==> s.producer.Ended?)
    && (s.phase.Cleaning? && !s.producer.Ended? ==> s.cancelAsked)
    && (s.phase.Abandoned? ==> !s.cancelAsked)
    && (s.phase.Starting? ==> !s.cancelAsked)
  }

  lemma YieldKeeps(cfg: Config, s: State, event: Event)
    requires Queued(s) && Forwarded(cfg, s) && s.producer.Driving?
    ensures Queued(Apply(cfg, s, Yields(event))) && Forwarded(cfg, Apply(cfg, s, Yields(event)))
  {
    var t := Apply(cfg, s, Yields(event));
    assert t.produced[t.count..] == s.produced[s.count..] + [event];
    assert t.produced[..t.count] == s.produced[..s.count];
    assert Puts(t.produced[t.count..]) == Puts(s.produced[s.count..]) + [Put(event)];
  }

  // What the next dequeued item is.
  lemma NextItem(s: State)
    requires Queued(s) && s.queue != []
    ensures s.count < |s.produced| ==>
              && s.queue[0] == Put(s.produced[s.count])
              && s.queue[1..] == Puts(s.produced[s.count + 1..])
                                 + (if s.producer.Ended? && !s.drained then [DoneMark] else [])
    ensures s.count == |s.produced| ==> s.queue == [DoneMark] && s.producer.Ended? && !s.drained
  {
    var marks := if s.producer.Ended? && !s.drained then [DoneMark] else [];
    if s.count < |s.produced| {
      assert Puts(s.produced[s.count..])[1..] == Puts(s.produced[s.count + 1..]);
      assert s.queue[1..] == Puts(s.produced[s.count..])[1..] + marks;
    } else {
      assert Puts(s.produced[s.count..]) == [];
    }
  }

  lemma ReceiveKeeps(cfg: Config, s: State)
    requires Queued(s) && Forwarded(cfg, s) && s.phase.Waiting? && s.queue != []
    ensures Queued(Receive(cfg, s)) && Forwarded(cfg, Receive(cfg, s))
  {
    NextItem(s);
    if s.count < |s.produced| {
      assert s.produced[..s.count + 1] == s.produced[..s.count] + [s.produced[s.count]];
    } else {
      assert Puts(s.produced[s.count..]) == [];
    }
  }

  lemma StepForwarded(cfg: Config, s: State, a: Action)
    requires Queued(s) && Forwarded(cfg, s)
    ensures Queued(Apply(cfg, s, a)) && Forwarded(cfg, Apply(cfg, s, a))
  {
    if a.Yields? {
      if s.producer.Driving? {
        YieldKeeps(cfg, s, a.event);
      }
    } else if a.Receives? {
      if s.phase.Waiting? && s.queue != [] {
        hide Receive;
        ReceiveKeeps(cfg, s);
      }
    } else {
      hide Receive, ErrorFor, Puts;
      OtherForwarded(cfg, s, a);
    }
  }

  lemma OtherForwarded(cfg: Config, s: State, a: Action)
    requires Queued(s) && Forwarded(cfg, s) && !a.Yields? && !a.Receives?
    ensures Queued(Apply(cfg, s, a)) && Forwarded(cfg, Apply(cfg, s, a))
  {
    hide Receive, ErrorFor, Puts, UsageDetail;
  }

  lemma StepTidy(cfg: Config, s: State, a: Action)
    requires Tidy(s)
    ensures Tidy(Apply(cfg, s, a))
  {
    hide ErrorFor;
  }

  lemma {:induction false} AlwaysForwarded(cfg: Config, actions: seq<Action>)
    ensures Queued(Run(cfg, actions)) && Forwarded(cfg, Run(cfg, actions)) && Tidy(Run(cfg, actions))
  {
    if actions != [] {
      hide Queued, Forwarded, Tidy, Apply;
      var before := actions[..|actions| - 1];
      AlwaysForwarded(cfg, before);
      StepForwarded(cfg, Run(cfg, before), actions[|actions| - 1]);
      StepTidy(cfg, Run(cfg, before), actions[|actions| - 1]);
    }
  }

  // In every run the frames sent are an in-order prefix of the produced events
  // followed by at most one error of the guard's own, within the cap.
  lemma FramesArePrefix(cfg: Config, actions: seq<Action>)
    ensures var s := Run(cfg, actions);
            && s.count <= |s.produced|
            && s.frames == s.produced[..s.count] + Last(s.error)
            && |s.frames| <= Cap(cfg)
            && (cfg.maxEvents >= 1 ==> |s.frames| <= cfg.maxEvents)
  {
    AlwaysForwarded(cfg, actions);
  }

  function LastWords(cfg: Config, end: SourceEnd): seq<Event> {
    if end.Fails? then [ErrorFor(cfg, end.failure)] else []
  }

  // When the done mark is taken the producer has finished, every event it
  // queued has been forwarded, and the client was told of a failure exactly when
  // there was one.
  lemma DoneMeansFinished(cfg: Config, actions: seq<Action>)
    requires Run(cfg, actions).phase.Waiting? && Run(cfg, actions).queue != [] && Run(cfg, actions).queue[0] == DoneMark
    ensures var s, t := Run(cfg, actions), Run(cfg, actions + [Receives]);
            && s.producer.Ended?
            && t.frames == s.produced + LastWords(cfg, s.producer.end)
  {
    var s := Run(cfg, actions);
    AlwaysForwarded(cfg, actions);
    assert (actions + [Receives])[..|actions|] == actions;
    NextItem(s);
    assert s.produced[..s.count] == s.produced;
    assert s.produced + [] == s.produced;
  }

  // A guard that waits never waits for nothing: once the producer has finished
  // there is an item to take.
  lemma NeverStarved(cfg: Config, actions: seq<Action>)
    requires Run(cfg, actions).phase.Waiting? && Run(cfg, actions).producer.Ended?
    ensures Run(cfg, actions).queue != []
  {
    AlwaysForwarded(cfg, actions);
  }

  // What the client is told of a failure, by its kind, and of a timeout.
  lemma FailureTold(cfg: Config, actions: seq<Action>)
    requires Run(cfg, actions).phase.Waiting?
    ensures var s := Run(cfg, actions);
            Run(cfg, actions + [TimesOut]).frames == s.frames + [Error("Stream timed out")]
    ensures var s := Run(cfg, actions);
            s.queue != [] && s.queue[0] == DoneMark && s.producer.Ended? && s.producer.end.Fails? ==>
              Run(cfg, actions + [Receives]).frames ==
              s.produced + [Error(match s.producer.end.failure
                                  case Refused(reason) => "Tool call refused: " + reason
                                  case LimitReached(reason) =>
                                    "Usage limit exceeded: " + reason +
                                    (match cfg.usage
                                     case None => ""
                                     case Some(u) =>
                                       " (requests=" + Numeral(u.requests) + ", tool_calls=" + Numeral(u.toolCalls)
                                       + ", total_tokens=" + Numeral(u.totalTokens) + ")")
                                  case OtherFailure => "An unexpected error occurred")]
  {
    assert (actions + [TimesOut])[..|actions|] == actions;
    var s := Run(cfg, actions);
    if s.queue != [] && s.queue[0] == DoneMark && s.producer.Ended? && s.producer.end.Fails? {
      DoneMeansFinished(cfg, actions);
    }
  }

  // Why a guard may be on its way out.
  ghost predicate HasReason(cfg: Config, actions: seq<Action>, s: State) {
    || s.drained
    || s.error == Some(Error("Stream timed out"))
    || |s.frames| >= Cap(cfg)
    || Interrupted in actions
    || Polled(false) in actions
  }

  ghost predicate Leaving(s: State) {
    s.phase.Cleaning? || s.phase.Closed? || s.phase == Suspended(true)
  }

  lemma StepHasReason(cfg: Config, before: seq<Action>, s: State, a: Action)
    requires Queued(s) && Forwarded(cfg, s) && (Leaving(s) ==> HasReason(cfg, before, s))
    ensures Leaving(Apply(cfg, s, a)) ==> HasReason(cfg, before + [a], Apply(cfg, s, a))
  {
    hide ErrorFor, Puts;
    if a.Receives? && s.phase.Waiting? && s.queue != [] {
      NextEvent(cfg, s);
    }
    assert forall b :: b in before ==> b in before + [a];
    assert a in before + [a];
  }

  lemma NextEvent(cfg: Config, s: State)
    requires Forwarded(cfg, s) && s.phase.Waiting?
    ensures s.count + 1 >= cfg.maxEvents ==> |s.frames| + 1 >= Cap(cfg)
  {
  }

  // The guard never cuts a stream short: it leaves only once the source's end was
  // taken, a wait timed out, the cap was reached, the client was found gone, or
  // the guard was cancelled or closed.
  lemma {:induction false} LeavesForReason(cfg: Config, actions: seq<Action>)
    ensures Leaving(Run(cfg, actions)) ==> HasReason(cfg, actions, Run(cfg, actions))
  {
    if actions != [] {
      hide Leaving, HasReason, Apply, Queued, Forwarded;
      var before := actions[..|actions| - 1];
      LeavesForReason(cfg, before);
      AlwaysForwarded(cfg, before);
      StepHasReason(cfg, before, Run(cfg, before), actions[|actions| - 1]);
      assert actions == before + [actions[|actions| - 1]];
    } else {
      assert !Leaving(Start());
    }
  }

  /******* Is the source closed on every exit? *******/

  // The moment at which the guard exits.
  predicate ExitsAt(cfg: Config, actions: seq<Action>) {
    actions != [] && !Exited(Run(cfg, actions[..|actions| - 1])) && Exited(Run(cfg, actions))
  }

  // Exactly: the source is still open when the guard exits if and only if the
  // guard was cancelled at its very first suspension, outside its `try`, while
  // the source had not ended; then nobody ever asks the source to stop.
  lemma SourceOpenAtExit(cfg: Config, actions: seq<Action>)
    requires ExitsAt(cfg, actions)
    ensures var before := Run(cfg, actions[..|actions| - 1]);
            && (!Run(cfg, actions).producer.Ended?
                <==> actions[|actions| - 1].Interrupted? && before.phase.Starting? && before.producer.Driving?)
            && (Run(cfg, actions).phase.Abandoned? ==> !Run(cfg, actions).cancelAsked)
  {
    AlwaysForwarded(cfg, actions[..|actions| - 1]);
    AlwaysForwarded(cfg, actions);
  }

  // Once the guard is past that suspension, every exit finds the source closed.
  lemma {:induction false} ClosedOnceResumed(cfg: Config, actions: seq<Action>, n: nat)
    requires n <= |actions|
    requires !Run(cfg, actions[..n]).phase.Starting? && !Run(cfg, actions[..n]).phase.Abandoned?
    ensures !Run(cfg, actions).phase.Starting? && !Run(cfg, actions).phase.Abandoned?
    ensures Exited(Run(cfg, actions)) ==> Run(cfg, actions).producer.Ended?
  {
    hide Queued, Forwarded, Apply;
    AlwaysForwarded(cfg, actions);
    if n == |actions| {
      assert actions[..n] == actions;
    } else {
      assert actions[..|actions| - 1][..n] == actions[..n];
      ClosedOnceResumed(cfg, actions[..|actions| - 1], n);
      StaysResumed(cfg, Run(cfg, actions[..|actions| - 1]), actions[|actions| - 1]);
    }
  }

  lemma StaysResumed(cfg: Config, s: State, a: Action)
    requires !s.phase.Starting? && !s.phase.Abandoned?
    ensures !Apply(cfg, s, a).phase.Starting? && !Apply(cfg, s, a).phase.Abandoned?
  {
    hide ErrorFor;
  }

  // The run that leaves it open: the client cancels before the first poll, and
  // the source goes on producing into a queue that nobody reads.
  lemma SourceLeftOpen(cfg: Config, e: Event)
    ensures var actions := [Launches, Interrupted];
            && ExitsAt(cfg, actions)
            && Run(cfg, actions).producer == Driving
            && Run(cfg, actions + [Yields(e)]).queue == [Put(e)]
            && Run(cfg, actions + [Yields(e)]).frames == []
  {
    var actions := [Launches, Interrupted];
    assert actions[..1] == [Launches] && [Launches][..0] == [];
    assert (actions + [Yields(e)])[..2] == actions;
    assert Run(cfg, [Launches]) == Start().(producer := Driving);
  }

  /******* The heartbeat *******/

  // How the upstream calls end once its frames are through.
  datatype UpstreamEnd = Exhausted | Raises

  // What one wait for the upstream call finds, or that the wait is cancelled;
  // `done` if the call has finished by then.
  datatype Wait = Idle | Ready | Cut(done: bool)

  // What follows a yield: the client asks on, or closes the generator.
  datatype Resume = Asks | Closes(done: bool)

  datatype Turn = Turn(wait: Wait, resume: Resume)

  datatype HeartbeatEnd = Running | Returned | Raised | StoppedWaiting | StoppedAtBeat | StoppedAtFrame

  // `cancelled`: the pending upstream call was cancelled on the way out.
  datatype HeartbeatRun = HeartbeatRun(out: seq<Item>, calls: nat, end: HeartbeatEnd, cancelled: bool)

  // Each turn that yields contributes a heartbeat if it found the call idle and
  // the next frame if it found it ready.
  ghost predicate Interleaved(upstream: seq<Event>, turns: seq<Turn>, out: seq<Item>) {
    && |out| <= |turns|
    && EventsOf(out) <= upstream
    && forall i :: 0 <= i < |out| ==> !turns[i].wait.Cut? && (out[i].Heartbeat? <==> turns[i].wait.Idle?)
  }

  // The call that is open when the run is where `end` says.
  predicate PendingAt(end: HeartbeatEnd, out: seq<Item>) {
    end.StoppedWaiting? || end.StoppedAtBeat? || (end.Running? && out != [] && out[|out| - 1].Heartbeat?)
  }

  // Where each end leaves off.
  ghost predicate EndsAt(upstream: seq<Event>, last: UpstreamEnd, turns: seq<Turn>, out: seq<Item>, end: HeartbeatEnd)
    requires |out| <= |turns|
  {
    var n := |out|;
    match end
    case Running => n == |turns| && forall i :: 0 <= i < n ==> turns[i].resume.Asks?
    case Returned => EventsOf(out) == upstream && last.Exhausted? && n < |turns| && turns[n].wait.Ready?
    case Raised => EventsOf(out) == upstream && last.Raises? && n < |turns| && turns[n].wait.Ready?
    case StoppedWaiting => n < |turns| && turns[n].wait.Cut?
    case StoppedAtBeat => n > 0 && out[n - 1].Heartbeat? && turns[n - 1].resume.Closes?
    case StoppedAtFrame => n > 0 && out[n - 1].Frame? && turns[n - 1].resume.Closes?
  }

  // Without its comments the output is the upstream in order, and the generator
  // ends as the upstream does, after all of it. One upstream call is open at a
  // time: an idle wait never starts another. A generator that is stopped cancels
  // the open call, unless that has finished by then.
  method WithHeartbeat(upstream: seq<Event>, last: UpstreamEnd, turns: seq<Turn>) returns (r: HeartbeatRun)
    ensures Interleaved(upstream, turns, r.out)
    ensures EndsAt(upstream, last, turns, r.out, r.end)
    ensures r.calls == |EventsOf(r.out)| + if PendingAt(r.end, r.out) || r.end.Returned? || r.end.Raised? then 1 else 0
    ensures r.cancelled <==>
              || (r.end.StoppedWaiting? && turns[|r.out|].wait == Cut(false))
              || (r.end.StoppedAtBeat? && turns[|r.out| - 1].resume == Closes(false))
  {
    var out: seq<Item>, calls, taken := [], 0, 0;
    var pending := false;
    assert SoFar(upstream, turns, out, 0) by { assert upstream[..0] == []; }
    hide EventsOf, SoFar, Interleaved;
    for i := 0 to |turns|
      invariant |out| == i && SoFar(upstream, turns, out, taken)
      invariant pending == (out != [] && out[|out| - 1].Heartbeat?)
      invariant calls == taken + if pending then 1 else 0
    {
      SoFarInterleaved(upstream, turns, out, taken);
      if !pending {
        pending, calls := true, calls + 1;
      }
      match turns[i].wait {
        case Cut(done) =>
          return HeartbeatRun(out, calls, StoppedWaiting, !done);
        case Idle =>
          TurnAdded(upstream, turns, out, taken);
          out := out + [Heartbeat];
          if turns[i].resume.Closes? {
            return HeartbeatRun(out, calls, StoppedAtBeat, !turns[i].resume.done);
          }
        case Ready =>
          pending := false;
          if taken == |upstream| {
            return HeartbeatRun(out, calls, if last.Exhausted? then Returned else Raised, false);
          }
          TurnAdded(upstream, turns, out, taken);
          out := out + [Frame(upstream[taken])];
          taken := taken + 1;
          if turns[i].resume.Closes? {
            return HeartbeatRun(out, calls, StoppedAtFrame, false);
          }
      }
    }
    SoFarInterleaved(upstream, turns, out, taken);
    return HeartbeatRun(out, calls, Running, false);
  }

  // After turns that all went on.
  ghost predicate SoFar(upstream: seq<Event>, turns: seq<Turn>, out: seq<Item>, taken: nat) {
    && taken <= |upstream| && Interleaved(upstream, turns, out) && EventsOf(out) == upstream[..taken]
    && forall i :: 0 <= i < |out| ==> turns[i].resume.Asks?
  }

  lemma SoFarInterleaved(upstream: seq<Event>, turns: seq<Turn>, out: seq<Item>, taken: nat)
    requires SoFar(upstream, turns, out, taken)
    ensures Interleaved(upstream, turns, out) && |out| <= |turns| && taken <= |upstream|
    ensures |EventsOf(out)| == taken && (taken == |upstream| ==> EventsOf(out) == upstream)
    ensures forall i :: 0 <= i < |out| ==> turns[i].resume.Asks?
  {
  }

  lemma TurnAdded(upstream: seq<Event>, turns: seq<Turn>, out: seq<Item>, taken: nat)
    requires SoFar(upstream, turns, out, taken) && |out| < |turns| && !turns[|out|].wait.Cut?
    requires turns[|out|].wait.Ready? ==> taken < |upstream|
    ensures var item := if turns[|out|].wait.Idle? then Heartbeat else Frame(upstream[taken]);
            var taken' := if item.Frame? then taken + 1 else taken;
            && Interleaved(upstream, turns, out + [item])
            && |EventsOf(out + [item])| == taken'
            && (turns[|out|].resume.Asks? ==> SoFar(upstream, turns, out + [item], taken'))
  {
    var item := if turns[|out|].wait.Idle? then Heartbeat else Frame(upstream[taken]);
    FrameAdded(out, item);
    hide EventsOf;
    assert taken < |upstream| ==> upstream[..taken + 1] == upstream[..taken] + [upstream[taken]];
  }

  lemma {:induction false} FrameAdded(items: seq<Item>, item: Item)
    ensures EventsOf(items + [item]) == EventsOf(items) + (if item.Frame? then [item.event] else [])
  {
    if items == [] {
      assert [item][1..] == [] && [] + [item] == [item];
    } else {
      FrameAdded(items[1..], item);
      assert (items + [item])[1..] == items[1..] + [item] && (items + [item])[0] == items[0];
      hide Own;
      assert EventsOf(items + [item]) == Own(items[0]) + EventsOf(items[1..] + [item]);
    }
  }

  /******* From the source to the client *******/

  // Whatever the interleaving of the two tasks, wherever heartbeats fall and
  // whichever line terminator the text ends up with, a client that has received
  // the first `n` frames parses the source's events in order, ending in the
  // guard's error if it sent one.
  lemma ClientSees(cfg: Config, actions: seq<Action>, items: seq<Item>, t: Terminator)
    requires EventsOf(items) <= Run(cfg, actions).frames
    ensures var s := Run(cfg, actions);
            && s.count <= |s.produced|
            && Parse(Replaced(StreamText(items), t)) == Some(EventsOf(items))
            && (EventsOf(items) <= s.produced
                || (s.error.Some? && EventsOf(items) == s.produced[..s.count] + [s.error.value]))
  {
    hide Replaced, StreamText, Parse, Queued, Run, Tidy;
    var s := Run(cfg, actions);
    AlwaysForwarded(cfg, actions);
    UniformRoundTrip(items, t);
    if |EventsOf(items)| <= s.count {
      assert EventsOf(items) == s.frames[..|EventsOf(items)|] == s.produced[..|EventsOf(items)|];
    } else {
      assert EventsOf(items) == s.frames;
    }
  }
}
