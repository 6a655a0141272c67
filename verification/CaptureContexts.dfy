/** The agent capture contexts as objects that update their own fields. Every method is proved to do
    exactly one step of CaptureRecords to the records its objects stand for. */
module CaptureContexts {
  import opened Options
  import opened Sampling
  import opened CR = CaptureRecords

  // The context variables of one task.
  class ContextVars {
    const task: TaskKey
    var run: AgentRunContext?
    var turn: TurnState?

    constructor (task: TaskKey)
      ensures this.task == task && View() == Vars(None, None)
    {
      this.task, run, turn := task, null, null;
    }

    ghost function View(): Vars
      reads this
    {
      Vars(RunKeyOf(run), TurnKeyOf(turn))
    }

    // clear_agent_context
    method Clear()
      modifies this
      ensures View() == Vars(None, None)
    {
      turn := null;
      run := null;
    }

    // The turn that provider instrumentation attaches to a new trace.
    method CurrentTrace() returns (active: TurnState?)
      ensures active != null <==>
                turn != null && turn.owner.open && turn.turn.status == Unknown
      ensures active != null ==> active == turn
    {
      if turn == null || !turn.owner.open || turn.turn.status != Unknown {
        return null;
      }
      return turn;
    }
  }

  ghost function RunKeyOf(r: AgentRunContext?): Option<RunKey> {
    if r == null then None else Some(r.key)
  }

  ghost function TurnKeyOf(s: TurnState?): Option<TurnKey> {
    if s == null then None else Some(s.key)
  }

  ghost function RunTokenView(t: Option<Token<AgentRunContext?>>): Option<Token<Option<RunKey>>> {
    if t.None? then None else Some(Token(t.value.task, RunKeyOf(t.value.saved)))
  }

  ghost function TurnTokenView(t: Option<Token<TurnState?>>): Option<Token<Option<TurnKey>>> {
    if t.None? then None else Some(Token(t.value.task, TurnKeyOf(t.value.saved)))
  }

  // Where a client's captured batches go: the drop counter, and the history of attempts.
  class CaptureChannel {
    ghost var log: seq<Attempt>
    var dropped: nat

    constructor ()
      ensures View() == Channel([], 0)
    {
      log, dropped := [], 0;
    }

    ghost function View(): Channel
      reads this
    {
      Channel(log, dropped)
    }

    method Note(ghost attempt: Attempt, stored: bool)
      requires attempt.stored == stored
      modifies this
      ensures log == old(log) + [attempt]
      ensures dropped == old(dropped) + if stored then 0 else 1
    {
      log := log + [attempt];
      if !stored {
        dropped := dropped + 1;
      }
    }
  }

  // ExitRun, by its checks and past them.
  lemma ExitRunFails(key: RunKey, run: Run, task: TaskKey, vars: Vars, channel: Channel, error: Option<Raised>,
      sink: bool)
    ensures var s := ExitRun(key, run, task, vars, channel, error, sink);
            if run.token.None? || run.turnToken.None? || run.snapshot.None?
                then s == RunStep(run, vars, channel, NotEntered)
            else if vars.turn.Some? then s == RunStep(run, vars, channel, ActiveTurn)
            else run.token.value.task != task ==> s == RunStep(run, vars, channel, ForeignTask)
  {
    hide CR.Emit;
  }

  lemma ExitRunEmits(key: RunKey, run: Run, task: TaskKey, vars: Vars, channel: Channel, error: Option<Raised>,
      sink: bool, closed: Run)
    requires run.token.Some? && run.turnToken.Some? && run.snapshot.Some? && vars.turn.None?
               && run.token.value.task == task
    requires closed == run.(token := None, turnToken := None,
                            snapshot := Some(run.snapshot.value.(status := TerminalStatus(error))))
    ensures var e := CR.Emit(key, closed, channel, None, None, None, sink);
            ExitRun(key, run, task, vars, channel, error, sink) ==
              RunStep(e.run.(open := false), Vars(run.token.value.saved, run.turnToken.value.saved), e.channel, Done)
  {
    hide CR.Emit;
  }

  class AgentRunContext {
    const key: RunKey
    const client: Client
    const channel: CaptureChannel
    const config: RunConfig
    var runId: string
    var run: Option<RunSnapshot>
    var source: Option<SourceSession>
    var token: Option<Token<AgentRunContext?>>
    var turnToken: Option<Token<TurnState?>>
    var turnSequence: nat
    var producerSequence: nat
    var latestTurn: TurnState?
    var captureFailed: bool
    var entered: bool
    var open: bool
    var sampled: bool
    ghost var root: RunKey

    constructor (key: RunKey, client: Client, channel: CaptureChannel, config: RunConfig)
      ensures View() == NewRun(key, config)
      ensures this.key == key && this.client == client && this.channel == channel
    {
      this.key, this.client, this.channel, this.config := key, client, channel, config;
      runId, run, source, token, turnToken := "", None, None, None, None;
      turnSequence, producerSequence, latestTurn := 0, 0, null;
      captureFailed, entered, open, sampled := false, false, false, false;
      root := key;
    }

    ghost function View(): Run
      reads this
    {
      Run(config, runId, run, source, RunTokenView(token), TurnTokenView(turnToken), turnSequence, producerSequence,
          TurnKeyOf(latestTurn), captureFailed, entered, open, sampled, root)
    }

    method NextTurnSequence() returns (value: nat)
      modifies this`turnSequence
      ensures value == old(turnSequence) && turnSequence == value + 1
    {
      value := turnSequence;
      turnSequence := turnSequence + 1;
    }

    method NextProducerSequence() returns (value: nat)
      modifies this`producerSequence
      ensures value == old(producerSequence) && producerSequence == value + 1
    {
      value := producerSequence;
      producerSequence := producerSequence + 1;
    }

    // accepts is what the sink would do with this batch: store it, or raise and store nothing.
    method Emit(turn: Option<TurnSnapshot>, event: Option<Event>, trace: Option<nat>, accepts: bool)
        returns (captured: bool)
      modifies this`captureFailed, channel
      ensures var e := CR.Emit(key, old(View()), old(channel.View()), turn, event, trace, accepts);
              && View() == e.run && channel.View() == e.channel
      ensures captured <==> CanEmit(View()) && !captureFailed
    {
      if !sampled || source.None? || run.None? {
        return false;
      }
      var batch := Batch(source.value, run.value, turn, event);
      if captureFailed {
        channel.Note(Attempt(key, batch, trace, false), false);
        return false;
      }
      if BatchValid(batch) && accepts {
        channel.Note(Attempt(key, batch, trace, true), true);
        return true;
      }
      captureFailed := true;
      channel.Note(Attempt(key, batch, trace, false), false);
      return false;
    }

    method Enter(vars: ContextVars, accepts: bool) returns (result: Result)
      requires vars.run == this ==> entered
      modifies this, channel, vars
      ensures var parent := if old(vars.run) == null then None else Some(old(vars.run.View()));
              var s := EnterRun(client, key, old(View()), parent, vars.task, old(vars.View()), old(channel.View()),
                  accepts);
              && View() == s.run && vars.View() == s.vars && channel.View() == s.channel && result == s.result
      ensures result == Done ==> vars.run == this && vars.turn == null
      ensures result != Done ==> vars.run == old(vars.run) && vars.turn == old(vars.turn)
      ensures result == Done ==>
                token == Some(Token(vars.task, old(vars.run)))
                && turnToken == Some(Token(vars.task, old(vars.turn)))
      ensures result != Done ==> token == old(token) && turnToken == old(turnToken)
      ensures latestTurn == old(latestTurn) && entered
    {
      hide CR.Emit, Decide;
      var parentId;
      result, parentId := Prepare(vars.run);
      if result == Done {
        run := Some(NewRunSnapshot(client, config, parentId));
        Activate(vars, accepts);
      }
    }

    // The start of Enter: the run is named, placed under its parent and sampled, or refused.
    method Prepare(parent: AgentRunContext?) returns (result: Result, parentId: Option<string>)
      requires parent == this ==> entered
      modifies this`entered, this`open, this`runId, this`sampled, this`root, this`source
      ensures var p := if parent == null then None else Some(old(parent.View()));
              var d := Decide(client, key, old(View()), p);
              View() == d.run && result == d.result && (result == Done ==> parentId == d.parentId)
      ensures entered
    {
      hide Sampled, RunTokenView, TurnTokenView, TurnKeyOf, RunKeyOf;
      parentId := None;
      if entered {
        return AlreadyEntered, parentId;
      }
      entered := true;
      open := true;
      if !config.idValid {
        return Invalid, parentId;
      }
      runId := config.runId;
      parentId := config.parentOverride;
      if parentId.None? || parentId.value == "" {
        parentId := if parent != null then Some(parent.runId) else None;
      }
      if parentId == Some(runId) {
        return SelfParent, parentId;
      }
      TakeDecision(parent);
      return if config.recordValid then Done else Invalid, parentId;
    }

    // A run takes the decision of the run it is entered in, or makes its own.
    method TakeDecision(parent: AgentRunContext?)
      requires parent != this
      modifies this`sampled, this`root, this`source
      ensures View() == old(View()).(
                sampled := if parent != null then parent.sampled else Sampled(config.digest, client.sampleRate),
                root := if parent != null then parent.root else key,
                source := Some(SourceSession(client.producer, client.tenant)))
    {
      hide Sampled, RunTokenView, TurnTokenView, TurnKeyOf;
      sampled := if parent != null then parent.sampled else Sampled(config.digest, client.sampleRate);
      root := if parent != null then parent.root else key;
      source := Some(SourceSession(client.producer, client.tenant));
    }

    // The end of Enter: the run is announced and made the active one.
    method Activate(vars: ContextVars, accepts: bool)
      modifies this`captureFailed, this`turnToken, this`token, channel, vars
      ensures var e := CR.Emit(key, old(View()), old(channel.View()), None, None, None, accepts);
              && View() == e.run.(turnToken := Some(Token(vars.task, old(vars.View()).turn)),
                                  token := Some(Token(vars.task, old(vars.View()).run)))
              && channel.View() == e.channel && vars.View() == Vars(Some(key), None)
      ensures token == Some(Token(vars.task, old(vars.run))) && turnToken == Some(Token(vars.task, old(vars.turn)))
      ensures vars.run == this && vars.turn == null
    {
      var _ := Emit(None, None, None, accepts);
      turnToken := Some(Token(vars.task, vars.turn));
      vars.turn := null;
      token := Some(Token(vars.task, vars.run));
      vars.run := this;
    }

    method Exit(vars: ContextVars, error: Option<Raised>, accepts: bool) returns (result: Result)
      requires token.Some? <==> turnToken.Some?
      modifies this, channel, vars
      ensures var s := ExitRun(key, old(View()), vars.task, old(vars.View()), old(channel.View()), error, accepts);
              && View() == s.run && vars.View() == s.vars && channel.View() == s.channel && result == s.result
      ensures result == Done ==> vars.run == old(token.value.saved) && vars.turn == old(turnToken.value.saved)
      ensures result != Done ==> vars.run == old(vars.run) && vars.turn == old(vars.turn)
      ensures token.Some? <==> turnToken.Some?
      ensures result == Done ==> token.None?
      ensures result != Done ==> token == old(token) && turnToken == old(turnToken)
      ensures latestTurn == old(latestTurn) && entered == old(entered)
    {
      hide CR.Emit, ExitRun, RunTokenView, TurnTokenView, TurnKeyOf, RunKeyOf, TerminalStatus;
      ExitRunFails(key, View(), vars.task, vars.View(), channel.View(), error, accepts);
      TokensSeen(vars);
      if token.None? || run.None? {
        return NotEntered;
      }
      if vars.turn != null {
        return ActiveTurn;
      }
      if token.value.task != vars.task {
        return ForeignTask;
      }
      ghost var closed := View().(token := None, turnToken := None,
          snapshot := Some(run.value.(status := TerminalStatus(error))));
      ExitRunEmits(key, View(), vars.task, vars.View(), channel.View(), error, accepts, closed);
      Deactivate(vars, error, accepts);
      return Done;
    }

    // What the record of this run says of its tokens and of the variables.
    lemma TokensSeen(vars: ContextVars)
      ensures View().token.Some? <==> token.Some?
      ensures View().turnToken.Some? <==> turnToken.Some?
      ensures token.Some? ==> View().token == Some(Token(token.value.task, RunKeyOf(token.value.saved)))
      ensures turnToken.Some? ==>
                View().turnToken ==
                Some(Token(turnToken.value.task, TurnKeyOf(turnToken.value.saved)))
      ensures vars.View() == Vars(RunKeyOf(vars.run), TurnKeyOf(vars.turn))
      ensures TurnKeyOf(vars.turn).Some? <==> vars.turn != null
    {
    }

    // The end of Exit: the variables are put back and the closed run is announced.
    method Deactivate(vars: ContextVars, error: Option<Raised>, accepts: bool)
      requires token.Some? && turnToken.Some? && run.Some?
      modifies this`run, this`token, this`turnToken, this`captureFailed, this`open, channel, vars
      ensures var closed := old(View()).(token := None, turnToken := None,
                                         snapshot := Some(old(run.value).(status := TerminalStatus(error))));
              var e := CR.Emit(key, closed, old(channel.View()), None, None, None, accepts);
              View() == e.run.(open := false) && channel.View() == e.channel
      ensures vars.View() == Vars(RunKeyOf(old(token.value.saved)), TurnKeyOf(old(turnToken.value.saved)))
      ensures vars.run == old(token.value.saved) && vars.turn == old(turnToken.value.saved)
      ensures token.None? && turnToken.None?
    {
      hide TerminalStatus, CR.Emit;
      vars.run := token.value.saved;
      token := None;
      vars.turn := turnToken.value.saved;
      turnToken := None;
      run := Some(run.value.(status := TerminalStatus(error)));
      assert View() == old(View()).(token := None, turnToken := None, snapshot := run);
      hide RunTokenView, TurnTokenView, TurnKeyOf, RunKeyOf;
      var _ := Emit(None, None, None, accepts);
      open := false;
    }

    method RequireActive(vars: ContextVars) returns (active: bool)
      requires vars.run != null && vars.run.key == key ==> vars.run == this
      ensures active <==> RunActive(key, View(), vars.View())
    {
      return open && vars.run == this;
    }

    method Turn(vars: ContextVars, request: string) returns (turn: TurnContext?)
      requires vars.run != null && vars.run.key == key ==> vars.run == this
      ensures turn != null <==> RunActive(key, View(), vars.View())
      ensures turn != null ==> fresh(turn) && turn.Valid() && turn.owner == this && turn.View() == NewTurn(key, request)
    {
      var active := RequireActive(vars);
      if !active {
        return null;
      }
      turn := new TurnContext(this, request);
    }

    method RecordBusinessOutcome(vars: ContextVars, refused: bool, valid: bool, eventId: nat, accepts: bool)
        returns (result: Result)
      requires vars.run != null && vars.run.key == key ==> vars.run == this
      requires latestTurn != null ==> latestTurn.owner == this
      modifies this`producerSequence, this`captureFailed, channel, latestTurn
      ensures var active := RunActive(key, old(View()), old(vars.View()));
              if active && old(latestTurn) != null then
                var draft := Draft(Outcome, if refused then Failed else Completed, None, None, None);
                var s := Record(old(latestTurn.View()), old(View()), old(channel.View()), draft, valid, eventId,
                    accepts);
                && latestTurn == old(latestTurn) && latestTurn.View() == s.state && View() == s.run
                     && channel.View() == s.channel && result == s.result
              else
                && View() == old(View()) && channel.View() == old(channel.View())
                && (latestTurn != null ==> latestTurn.View() == old(latestTurn.View()))
                && result == if active then NoTurnYet else Inactive
    {
      var active := RequireActive(vars);
      if !active {
        return Inactive;
      }
      if latestTurn == null {
        return NoTurnYet;
      }
      var draft := Draft(Outcome, if refused then Failed else Completed, None, None, None);
      result := latestTurn.Capture(draft, valid, eventId, accepts);
    }
  }

  class TurnState {
    const key: TurnKey
    const owner: AgentRunContext
    var turn: TurnSnapshot
    var nextEventSequence: nat

    constructor (key: TurnKey, owner: AgentRunContext, turn: TurnSnapshot)
      ensures this.key == key && this.owner == owner && View() == CR.TurnState(owner.key, turn, 0)
    {
      this.key, this.owner, this.turn, nextEventSequence := key, owner, turn, 0;
    }

    ghost function View(): CR.TurnState
      reads this
    {
      CR.TurnState(owner.key, turn, nextEventSequence)
    }

    // Constructs an event and, if it is valid, numbers it.
    method NewEvent(draft: Draft, valid: bool, eventId: nat) returns (event: Option<Event>)
      modifies this`nextEventSequence, owner`producerSequence
      ensures event == if valid then Some(CR.Event(eventId, turn.turnId, old(nextEventSequence),
                old(owner.producerSequence), draft)) else None
      ensures nextEventSequence == old(nextEventSequence) + if valid then 1 else 0
      ensures owner.producerSequence == old(owner.producerSequence) + if valid then 1 else 0
    {
      if !valid {
        return None;
      }
      var sequence := nextEventSequence;
      var producerSequence := owner.NextProducerSequence();
      nextEventSequence := nextEventSequence + 1;
      return Some(CR.Event(eventId, turn.turnId, sequence, producerSequence, draft));
    }

    method Emit(event: Event, trace: Option<nat>, accepts: bool) returns (captured: bool)
      modifies owner`captureFailed, owner.channel
      ensures var e := CR.Emit(owner.key, old(owner.View()), old(owner.channel.View()), Some(turn), Some(event), trace,
                accepts);
              && owner.View() == e.run && owner.channel.View() == e.channel
    {
      captured := owner.Emit(Some(turn), Some(event), trace, accepts);
    }

    // An event is constructed, numbered and emitted with the turn's present snapshot.
    method Capture(draft: Draft, valid: bool, eventId: nat, accepts: bool) returns (result: Result)
      modifies this`nextEventSequence, owner`producerSequence, owner`captureFailed, owner.channel
      ensures var s := Record(old(View()), old(owner.View()), old(owner.channel.View()), draft, valid, eventId,
                accepts);
              && View() == s.state && owner.View() == s.run && owner.channel.View() == s.channel && result == s.result
    {
      var event := NewEvent(draft, valid, eventId);
      if event.None? {
        return Invalid;
      }
      var _ := Emit(event.value, draft.traceId, accepts);
      return Done;
    }

    method CaptureModelTrace(trace: nat, failed: bool, valid: bool, eventId: nat, accepts: bool)
        returns (result: Result)
      modifies this`nextEventSequence, owner`producerSequence, owner`captureFailed, owner.channel
      ensures var draft := Draft(ModelCall, if failed then Failed else Completed, Some(trace), None, None);
              var s := Record(old(View()), old(owner.View()), old(owner.channel.View()), draft, valid, eventId,
                  accepts);
              && View() == s.state && owner.View() == s.run && owner.channel.View() == s.channel && result == s.result
    {
      result := Capture(Draft(ModelCall, if failed then Failed else Completed, Some(trace), None, None), valid,
          eventId, accepts);
    }
  }

  class TurnContext {
    const owner: AgentRunContext
    const userInput: string
    var state: TurnState?
    var token: Option<Token<TurnState?>>
    var entered: bool
    var output: Option<string>

    constructor (owner: AgentRunContext, userInput: string)
      ensures Valid() && this.owner == owner && View() == NewTurn(owner.key, userInput)
    {
      this.owner, this.userInput := owner, userInput;
      state, token, entered, output := null, None, false, None;
    }

    ghost predicate Valid()
      reads this
    {
      && (entered <==> state != null)
      && (token.Some? ==> entered)
      && (state != null ==> state.owner == owner)
    }

    ghost function View(): CR.Turn
      reads this
    {
      CR.Turn(owner.key, userInput, TurnTokenView(token), entered, output)
    }

    method Enter(vars: ContextVars, key: TurnKey, valid: bool, accepts: bool) returns (result: Result)
      requires Valid()
      modifies this`entered, this`state, this`token
      modifies owner`turnSequence, owner`latestTurn, owner`captureFailed, owner.channel, vars`turn
      ensures Valid()
      ensures var s := EnterTurn(owner.client, key, old(View()), old(owner.View()), vars.task, old(vars.View()),
                                 old(owner.channel.View()), valid, accepts);
              && View() == s.turn && owner.View() == s.run && vars.View() == s.vars
              && owner.channel.View() == s.channel && result == s.result
              && (result == Done ==> s.state == Some(state.View()))
      ensures result == Done ==> fresh(state) && state.key == key && vars.turn == state && owner.latestTurn == state
      ensures result != Done ==>
                state == old(state) && vars.turn == old(vars.turn)
                && owner.latestTurn == old(owner.latestTurn) && token == old(token)
      ensures result == Done ==> token == Some(Token(vars.task, old(vars.turn))) && old(state) == null
      ensures vars.run == old(vars.run)
    {
      hide CR.Emit, Content, RunTokenView;
      if entered {
        return AlreadyEntered;
      }
      if vars.turn != null {
        return NestedTurn;
      }
      var request := Content(owner.client, userInput);
      if !valid {
        return Invalid;
      }
      Open(vars, key, request, accepts);
      return Done;
    }

    // The end of Enter: the turn is numbered, announced and made the active one.
    method Open(vars: ContextVars, key: TurnKey, request: Option<string>, accepts: bool)
      modifies this`entered, this`state, this`token
      modifies owner`turnSequence, owner`latestTurn, owner`captureFailed, owner.channel, vars`turn
      ensures Announced(key, request, accepts, old(owner.View()), old(owner.channel.View()))
      ensures state != null && fresh(state) && state.key == key && state.owner == owner && owner.latestTurn == state
      ensures View() == old(View()).(entered := true, token := Some(Token(vars.task, old(vars.View()).turn)))
      ensures vars.View() == old(vars.View()).(turn := Some(key)) && vars.run == old(vars.run) && vars.turn == state
      ensures entered && token == Some(Token(vars.task, old(vars.turn)))
    {
      Announce(key, request, accepts);
      hide Announced;
      token := Some(Token(vars.task, vars.turn));
      vars.turn := state;
    }

    // The turn has taken the next number of its run and was emitted; run and channel are the views before.
    ghost predicate Announced(key: TurnKey, request: Option<string>, accepts: bool, run: Run, channel: Channel)
      reads this, state, owner, owner.channel
    {
      var turn := TurnSnapshot(key, run.runId, run.turnSequence, request,
                               if request.Some? then Present else NotCaptured, None, NotCaptured, Unknown);
      var numbered := run.(turnSequence := run.turnSequence + 1, latestTurn := Some(key));
      var e := CR.Emit(owner.key, numbered, channel, Some(turn), None, None, accepts);
      && owner.View() == e.run && owner.channel.View() == e.channel
      && state != null && state.View() == CR.TurnState(owner.key, turn, 0)
    }

    method Announce(key: TurnKey, request: Option<string>, accepts: bool)
      modifies this`entered, this`state
      modifies owner`turnSequence, owner`latestTurn, owner`captureFailed, owner.channel
      ensures Announced(key, request, accepts, old(owner.View()), old(owner.channel.View()))
      ensures state != null && fresh(state) && state.key == key && state.owner == owner && owner.latestTurn == state
      ensures entered
    {
      hide CR.Emit, RunTokenView, TurnTokenView, RunKeyOf;
      var number := owner.NextTurnSequence();
      var turn := TurnSnapshot(key, owner.runId, number, request, if request.Some? then Present else NotCaptured,
                               None, NotCaptured, Unknown);
      entered := true;
      state := new TurnState(key, owner, turn);
      owner.latestTurn := state;
      assert owner.View() == old(owner.View()).(turnSequence := number + 1, latestTurn := Some(key));
      var _ := owner.Emit(Some(turn), None, None, accepts);
    }

    method Exit(vars: ContextVars, error: Option<Raised>, accepts: bool) returns (result: Result)
      requires Valid()
      modifies this`token, state, owner`captureFailed, owner.channel, vars`turn
      ensures Valid()
      ensures result == Done ==> token.None? && old(token).Some? && vars.turn == old(token).value.saved
      ensures result != Done ==> vars.turn == old(vars.turn) && token == old(token)
      ensures if old(state) == null then
                result == NotEntered && View() == old(View()) && owner.View() == old(owner.View())
                && vars.View() == old(vars.View()) && owner.channel.View() == old(owner.channel.View())
              else
                var s := ExitTurn(owner.client, old(View()), old(state.View()), old(owner.View()), vars.task,
                                  old(vars.View()), old(owner.channel.View()), error, accepts);
                && View() == s.turn && s.state == Some(state.View()) && owner.View() == s.run
                && vars.View() == s.vars && owner.channel.View() == s.channel && result == s.result
    {
      if token.None? {
        return NotEntered;
      }
      if token.value.task != vars.task {
        return ForeignTask;
      }
      vars.turn := token.value.saved;
      token := None;
      var response := if error.None? && output.Some? then Content(owner.client, output.value) else None;
      state.turn := state.turn.(
        status := TerminalStatus(error), response := response,
        responseState := if response.Some? then Present
                         else if owner.client.captureContent then Missing else NotCaptured);
      var _ := owner.Emit(Some(state.turn), None, None, accepts);
      return Done;
    }

    // Identity of turn states is identity of their keys.
    ghost predicate Identified(vars: ContextVars)
      reads this, vars
    {
      state != null && vars.turn != null && vars.turn.key == state.key ==> vars.turn == state
    }

    ghost predicate Active(vars: ContextVars)
      reads this, vars
    {
      state != null && TurnActive(state.key, View(), vars.View())
    }

    method RequireActive(vars: ContextVars) returns (active: bool)
      requires Valid() && Identified(vars)
      ensures active <==> Active(vars)
    {
      return token.Some? && vars.turn == state;
    }

    method SetOutput(vars: ContextVars, text: Option<string>) returns (result: Result)
      requires Valid() && Identified(vars)
      modifies this`output
      ensures Valid()
      ensures result == if !old(Active(vars)) then Inactive else if text.None? then Invalid else Done
      ensures output == if result == Done then text else old(output)
    {
      var active := RequireActive(vars);
      if !active {
        return Inactive;
      }
      if text.None? {
        return Invalid;
      }
      output := text;
      return Done;
    }

    method Tool(vars: ContextVars, key: ToolKey, callId: string, valid: bool)
        returns (tool: ToolContext?, result: Result)
      requires Valid() && Identified(vars)
      ensures result == if !Active(vars) then Inactive else if !valid then Invalid else Done
      ensures tool != null <==> result == Done
      ensures tool != null ==>
                fresh(tool) && tool.Valid() && tool.turn == this
                && tool.View() == NewTool(state.key, callId)
      ensures tool != null ==> tool.key == key
    {
      var active := RequireActive(vars);
      if !active {
        return null, Inactive;
      }
      if !valid {
        return null, Invalid;
      }
      tool := new ToolContext(key, this, callId);
      result := Done;
    }

    method Record(vars: ContextVars, name: string, status: Status, valid: bool, eventId: nat, accepts: bool)
        returns (result: Result)
      requires Valid() && Identified(vars)
      modifies state, owner`producerSequence, owner`captureFailed, owner.channel
      ensures if old(Active(vars)) then
                var s := CR.Record(old(state.View()), old(owner.View()), old(owner.channel.View()),
                                   Draft(Other(name), status, None, None, None), valid, eventId, accepts);
                && state.View() == s.state && owner.View() == s.run && owner.channel.View() == s.channel
                     && result == s.result
              else
                && result == Inactive && owner.View() == old(owner.View())
                     && owner.channel.View() == old(owner.channel.View())
                && (state != null ==> state.View() == old(state.View()))
      ensures Valid()
    {
      var active := RequireActive(vars);
      if !active {
        return Inactive;
      }
      result := state.Capture(Draft(Other(name), status, None, None, None), valid, eventId, accepts);
    }
  }

  class ToolContext {
    const key: ToolKey
    const turnKey: TurnKey
    const turn: TurnContext
    const callId: string
    var entered: bool
    var closed: bool
    ghost var task: TaskKey

    constructor (key: ToolKey, turn: TurnContext, callId: string)
      requires turn.state != null
      ensures this.key == key && this.turn == turn && View() == NewTool(turn.state.key, callId)
    {
      this.key, this.turnKey, this.turn, this.callId := key, turn.state.key, turn, callId;
      entered, closed, task := false, false, 0;
    }

    ghost function View(): CR.Tool
      reads this
    {
      CR.Tool(turnKey, callId, entered, closed, task)
    }

    // The turn a tool was made on is the one its context entered.
    ghost predicate Valid()
      reads this, turn
    {
      turn.Valid() && turn.state != null && turn.state.key == turnKey
    }

    method Enter(vars: ContextVars, valid: bool, eventId: nat, accepts: bool) returns (result: Result)
      requires Valid() && turn.Identified(vars)
      modifies this`entered, this`closed, this`task, turn.state`nextEventSequence
      modifies turn.owner`producerSequence, turn.owner`captureFailed, turn.owner.channel
      ensures Valid()
      ensures var s := EnterTool(key, old(View()), old(turn.View()), old(turn.state.View()), old(turn.owner.View()),
                vars.task, old(vars.View()), old(turn.owner.channel.View()), valid, eventId, accepts);
              && View() == s.tool && turn.state.View() == s.event.state && turn.owner.View() == s.event.run
              && turn.owner.channel.View() == s.event.channel && result == s.event.result
    {
      var active := turn.RequireActive(vars);
      if !active {
        return Inactive;
      }
      if entered {
        return AlreadyEntered;
      }
      entered := true;
      task := vars.task;
      result := turn.state.Capture(Draft(ToolCall, Completed, None, Some(callId), Some(key)), valid, eventId, accepts);
    }

    method Exit(vars: ContextVars, error: Option<Raised>, valid: bool, eventId: nat, accepts: bool)
        returns (result: Result)
      requires Valid() && turn.Identified(vars)
      modifies this`entered, this`closed, this`task, turn.state`nextEventSequence
      modifies turn.owner`producerSequence, turn.owner`captureFailed, turn.owner.channel
      ensures Valid()
      ensures var s := ExitTool(key, old(View()), old(turn.View()), old(turn.state.View()), old(turn.owner.View()),
                                old(vars.View()), old(turn.owner.channel.View()), error, valid, eventId, accepts);
              && View() == s.tool && turn.state.View() == s.event.state && turn.owner.View() == s.event.run
              && turn.owner.channel.View() == s.event.channel && result == s.event.result
    {
      if !entered || closed {
        return NotEntered;
      }
      var active := turn.RequireActive(vars);
      if !active {
        return Inactive;
      }
      closed := true;
      result := turn.state.Capture(Draft(ToolResult, TerminalStatus(error), None, Some(callId), Some(key)), valid,
          eventId, accepts);
    }
  }
}
