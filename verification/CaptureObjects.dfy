/** A heap of run, turn and tool contexts used by many tasks stands for a CaptureWorld, and whatever is
    called on its objects is a step of that world. So what holds of every schedule holds of the objects.

    For each operation, the function named Step is the step that the called objects take; the method named
    Object makes the call; the one named Alone adds that every other object is as it was; and the one named
    as the operation says what that is to the world. */
module CaptureObjects {
  import opened Options
  import opened CR = CaptureRecords
  import CW = CaptureWorld
  import CS = CaptureSteps
  import CC = CaptureContexts
  import CI = CaptureInvariants
  import CL = CaptureLog

  // Where event ids come from; ids do not repeat.
  class IdSource {
    var next: nat

    constructor ()
      ensures next == 0
    {
      next := 0;
    }

    method Draw() returns (id: nat)
      modifies this
      ensures id == old(next) && next == id + 1
    {
      id := next;
      next := next + 1;
    }
  }

  class Process {
    const client: Client
    const channel: CC.CaptureChannel
    var runs: map<RunKey, CC.AgentRunContext>
    var turns: map<TurnKey, CC.TurnContext>
    var tools: map<ToolKey, CC.ToolContext>
    var tasks: map<TaskKey, CC.ContextVars>
    const ids: IdSource

    // ---- What the objects stand for ----

    ghost function RunViews(): map<RunKey, Run>
      reads this, runs.Values
    {
      map r | r in runs :: runs[r].View()
    }

    ghost function TurnViews(): map<TurnKey, Turn>
      reads this, turns.Values
    {
      map k | k in turns :: turns[k].View()
    }

    ghost function StateObjects(): set<CC.TurnState>
      reads this, turns.Values
    {
      set k | k in turns && turns[k].state != null :: turns[k].state
    }

    ghost function StateViews(): map<TurnKey, TurnState>
      reads this, turns.Values, StateObjects()
    {
      map k | k in turns && turns[k].state != null :: turns[k].state.View()
    }

    ghost function ToolViews(): map<ToolKey, Tool>
      reads this, tools.Values
    {
      map l | l in tools :: tools[l].View()
    }

    ghost function TaskViews(): map<TaskKey, Vars>
      reads this, tasks.Values
    {
      map t | t in tasks :: tasks[t].View()
    }

    ghost function Repr(): set<object>
      reads this, turns.Values
    {
      {this, channel, ids} + runs.Values + turns.Values + StateObjects() + tools.Values + tasks.Values
    }

    ghost function World(): CW.World
      reads this, Repr()
    {
      CW.World(client, RunViews(), TurnViews(), StateViews(), ToolViews(), TaskViews(), channel.View(), ids.next)
    }

    // ---- Identity of objects is identity of keys ----

    ghost predicate KnownRun(r: CC.AgentRunContext?)
      reads this, runs.Values
    {
      r != null ==> r.key in runs && runs[r.key] == r && runs[r.key].entered
    }

    ghost predicate KnownTurn(s: CC.TurnState?)
      reads this, turns.Values
    {
      s != null ==> s.key in turns && turns[s.key].state == s
    }

    ghost predicate RunOk(r: RunKey)
      requires r in runs
      reads this, runs.Values, turns.Values
    {
      var run := runs[r];
      && run.key == r && run.client == client && run.channel == channel
      && (run.token.Some? <==> run.turnToken.Some?)
      && (run.token.Some? ==> KnownRun(run.token.value.saved))
      && (run.turnToken.Some? ==> KnownTurn(run.turnToken.value.saved))
      && KnownTurn(run.latestTurn) && (run.latestTurn != null ==> run.latestTurn.owner == run)
    }

    ghost predicate TurnOk(k: TurnKey)
      requires k in turns
      reads this, turns.Values
    {
      var turn := turns[k];
      && turn.Valid() && turn.owner.key in runs && runs[turn.owner.key] == turn.owner
      && (turn.state != null ==> turn.state.key == k)
      && (turn.token.Some? ==> KnownTurn(turn.token.value.saved))
    }

    ghost predicate ToolOk(l: ToolKey)
      requires l in tools
      reads this, tools.Values, turns.Values
    {
      var tool := tools[l];
      && tool.key == l && tool.turnKey in turns && turns[tool.turnKey] == tool.turn && tool.turn.state != null
    }

    ghost predicate TaskOk(t: TaskKey)
      requires t in tasks
      reads this, runs.Values, turns.Values, tasks.Values
    {
      tasks[t].task == t && KnownRun(tasks[t].run) && KnownTurn(tasks[t].turn)
    }

    ghost predicate Valid()
      reads this, Repr()
    {
      && (forall r :: r in runs ==> RunOk(r))
      && (forall k :: k in turns ==> TurnOk(k))
      && (forall k, j :: k in turns && j in turns && turns[k] == turns[j] ==> k == j)
      && (forall l :: l in tools ==> ToolOk(l))
      && (forall t :: t in tasks ==> TaskOk(t))
    }

    constructor (client: Client, task: TaskKey)
      ensures Valid() && fresh(Repr())
      ensures World() == CW.Initial(client, task)
    {
      this.client := client;
      channel := new CC.CaptureChannel();
      ids := new IdSource();
      runs, turns, tools := map[], map[], map[];
      var vars := new CC.ContextVars(task);
      tasks := map[task := vars];
      new;
      hide *;
      ghost var all: set<object> := {this, channel, ids, vars};
      assert fresh(all);
      NothingYet(task, vars);
    }

    lemma NothingYet(task: TaskKey, vars: CC.ContextVars)
      requires runs == map[] && turns == map[] && tools == map[] && tasks == map[task := vars]
      requires vars.task == task && vars.View() == Vars(None, None) && channel.View() == Channel([], 0) && ids.next == 0
      ensures Valid() && World() == CW.Initial(client, task)
      ensures Repr() == {this, channel, ids, vars}
    {
      assert tasks[task] == vars && task in tasks;
      assert TaskViews() == map[task := Vars(None, None)];
    }

    // ---- What an operation leaves alone ----

    // Outside of what an operation touches or makes, objects are as they were; nothing is forgotten.
    twostate predicate RunsKept(touched: set<RunKey>)
      reads this, runs.Values
    {
      && (forall r :: r in old(runs) ==>
            && r in runs && runs[r] == old(runs[r]) && (old(runs[r].entered) ==> runs[r].entered)
            && (r !in touched ==> unchanged(runs[r])))
      && (forall r :: r in runs && r !in old(runs) ==> r in touched && fresh(runs[r]))
    }

    twostate predicate TurnsKept(touched: set<TurnKey>)
      reads this, turns.Values, StateObjects()
    {
      && (forall k :: k in old(turns) ==>
            && k in turns && turns[k] == old(turns[k])
            && (old(turns[k].state) != null ==> turns[k].state == old(turns[k].state))
            && (k !in touched ==>
                  unchanged(turns[k]) && (old(turns[k].state) != null ==> unchanged(old(turns[k].state)))))
      && (forall k :: k in turns && k !in old(turns) ==> k in touched && fresh(turns[k]))
      && (forall k :: k in turns && turns[k].state != null ==>
            (k in old(turns) && old(turns[k].state) == turns[k].state) || (k in touched && fresh(turns[k].state)))
    }

    twostate predicate ToolsKept(touched: set<ToolKey>)
      reads this, tools.Values
    {
      && (forall l :: l in old(tools) ==>
            l in tools && tools[l] == old(tools[l]) && (l !in touched ==> unchanged(tools[l])))
      && (forall l :: l in tools && l !in old(tools) ==> l in touched && fresh(tools[l]))
    }

    twostate predicate TasksKept(touched: set<TaskKey>)
      reads this, tasks.Values
    {
      && (forall t :: t in old(tasks) ==>
            t in tasks && tasks[t] == old(tasks[t]) && (t !in touched ==> unchanged(tasks[t])))
      && (forall t :: t in tasks && t !in old(tasks) ==> t in touched && fresh(tasks[t]))
    }

    twostate predicate Kept(t: Touched)
      reads this, Repr()
    {
      RunsKept(t.runs) && TurnsKept(t.turns) && ToolsKept(t.tools) && TasksKept(t.tasks)
    }

    twostate lemma ReprGrows(t: Touched)
      requires Kept(t)
      ensures fresh(Repr() - old(Repr()))
    {
    }

    // What an operation touched is in order.
    ghost predicate TouchedOk(t: Touched)
      reads this, Repr()
    {
      && (forall r :: r in t.runs && r in runs ==> RunOk(r))
      && (forall k :: k in t.turns && k in turns ==> TurnOk(k))
      && (forall k, j :: k in t.turns && k in turns && j in turns && turns[k] == turns[j] ==> k == j)
      && (forall l :: l in t.tools && l in tools ==> ToolOk(l))
      && (forall u :: u in t.tasks && u in tasks ==> TaskOk(u))
    }

    twostate lemma StaysValid(t: Touched)
      requires old(Valid()) && Kept(t) && TouchedOk(t)
      ensures Valid()
    {
      forall r | r in runs && r !in t.runs ensures RunOk(r) { assert old(RunOk(r)); }
      forall k | k in turns && k !in t.turns ensures TurnOk(k) { assert old(TurnOk(k)); }
      forall l | l in tools && l !in t.tools ensures ToolOk(l) { assert old(ToolOk(l)); }
      forall u | u in tasks && u !in t.tasks ensures TaskOk(u) { assert old(TaskOk(u)); }
    }

    twostate lemma WorldKept(t: Touched)
      requires old(Valid()) && Kept(t)
      ensures WorldSameBut(old(World()), World(), t)
    {
    }

    // ---- What the world says of the objects ----

    ghost predicate TaskReady(task: TaskKey)
      reads *
    {
      task in tasks && TaskOk(task)
    }

    ghost predicate RunReady(key: RunKey)
      reads *
    {
      key in runs && RunOk(key)
    }

    ghost predicate TurnReady(k: TurnKey)
      reads *
    {
      && k in turns && TurnOk(k) && RunReady(turns[k].owner.key)
      && turns[k].owner.key in runs && runs[turns[k].owner.key] == turns[k].owner
    }

    ghost predicate ToolReady(l: ToolKey)
      reads *
    {
      && l in tools && ToolOk(l) && TurnReady(tools[l].turnKey)
      && var turn := tools[l].turn;
         turn == turns[tools[l].turnKey] && turn.state != null && turn.state.owner == turn.owner
    }

    ghost predicate TaskSeen(task: TaskKey)
      reads *
    {
      && TaskReady(task)
      && var w, vars := World(), tasks[task];
         && task in w.tasks && w.tasks[task] == vars.View()
         && w.channel == channel.View() && w.client == client && w.eventIds == ids.next
         && CW.ActiveRun(w, vars.View()) == (if vars.run == null then None else Some(vars.run.View()))
    }

    lemma SeeTask(task: TaskKey)
      requires Valid() && task in tasks
      ensures TaskSeen(task)
    {
    }

    ghost predicate RunSeen(key: RunKey)
      reads *
    {
      RunReady(key) && key in World().runs && World().runs[key] == runs[key].View()
    }

    lemma SeeRun(key: RunKey)
      requires Valid() && key in runs
      ensures RunSeen(key)
    {
    }

    ghost predicate TurnSeen(k: TurnKey)
      reads *
    {
      && TurnReady(k)
      && var w, turn := World(), turns[k];
         && k in w.turns && w.turns[k] == turn.View() && RunSeen(turn.owner.key)
         && (turn.state != null <==> k in w.states)
         && (turn.state != null ==> w.states[k] == turn.state.View() && w.states[k].owner == w.turns[k].owner)
    }

    lemma SeeTurn(k: TurnKey)
      requires Valid() && k in turns
      ensures TurnSeen(k)
    {
      assert TurnOk(k);
      SeeRun(turns[k].owner.key);
    }

    ghost predicate ToolSeen(l: ToolKey)
      reads *
    {
      && ToolReady(l) && TurnSeen(tools[l].turnKey)
      && l in World().tools && World().tools[l] == tools[l].View()
    }

    lemma SeeTool(l: ToolKey)
      requires Valid() && l in tools
      ensures ToolSeen(l)
    {
      assert ToolOk(l);
      SeeTurn(tools[l].turnKey);
    }

    // No object is under two keys.
    ghost predicate Distinct()
      reads *
    {
      && (forall r, q :: r in runs && q in runs && runs[r] == runs[q] ==> r == q)
      && (forall k, j :: k in turns && j in turns && turns[k] == turns[j] ==> k == j)
      && (forall k, j :: k in turns && j in turns && turns[k].state != null && turns[k].state == turns[j].state ==>
           k == j)
      && (forall l, m :: l in tools && m in tools && tools[l] == tools[m] ==> l == m)
      && (forall t, u :: t in tasks && u in tasks && tasks[t] == tasks[u] ==> t == u)
    }

    lemma ObjectsAreDistinct()
      requires Valid()
      ensures Distinct()
    {
      assert forall r :: r in runs ==> RunOk(r);
      assert forall k :: k in turns ==> TurnOk(k);
      assert forall l :: l in tools ==> ToolOk(l);
      assert forall t :: t in tasks ==> TaskOk(t);
    }

    // ---- Entering and closing runs ----

    // The objects of a run and a task are as a run step says.
    ghost predicate RunIs(d: RunDone)
      reads *
    {
      && TaskReady(d.task) && RunReady(d.key)
      && runs[d.key].View() == d.s.run && tasks[d.task].View() == d.s.vars && channel.View() == d.s.channel
    }

    twostate predicate RunDid(d: RunDone)
      reads *
    {
      RunIs(d) && Kept(Touched({d.key}, {}, {}, {d.task})) && ids.next == old(ids.next)
    }

    twostate lemma RunStepped(d: RunDone)
      requires old(Valid()) && RunDid(d)
      ensures Valid() && World() == CW.WithRun(old(World()), d.task, d.key, d.s).world
      ensures fresh(Repr() - old(Repr()))
    {
      var t := Touched({d.key}, {}, {}, {d.task});
      hide World, Kept, WorldSameBut, RunOk, TaskOk, Valid;
      assert TouchedOk(t);
      hide TouchedOk;
      StaysValid(t);
      WorldKept(t);
      ReprGrows(t);
      SeeTask(d.task);
      SeeRun(d.key);
      IdsAre(0);
      RunWorld(old(World()), World(), d.task, d.key, d.s);
    }

    twostate lemma IdsAre(drawn: nat)
      requires ids.next == old(ids.next) + drawn
      ensures World().eventIds == old(World()).eventIds + drawn
    {
    }

    ghost function EnterRunStep(task: TaskKey, key: RunKey, sink: bool): RunStep
      requires TaskReady(task) && RunReady(key)
      reads *
    {
      var run, vars := runs[key], tasks[task];
      var parent := if vars.run == null then None else Some(vars.run.View());
      EnterRun(client, key, run.View(), parent, task, vars.View(), channel.View(), sink)
    }

    lemma EnterRunIsWorlds(task: TaskKey, key: RunKey, sink: bool)
      requires TaskSeen(task) && RunSeen(key)
      ensures var w := World();
              CW.Next(w, task, CW.BeginRun(key, sink)) == CW.WithRun(w, task, key, EnterRunStep(task, key, sink))
    {
      hide World, EnterRun, CW.WithRun, RunOk, TaskOk;
      var s := CS.RunBegun(World(), task, CW.BeginRun(key, sink));
    }

    method EnterRunObject(task: TaskKey, key: RunKey, sink: bool) returns (result: Result)
      requires TaskReady(task) && RunReady(key)
      modifies runs[key], channel, tasks[task]
      ensures RunIs(RunDone(task, key, old(EnterRunStep(task, key, sink)))) && runs[key].entered
      ensures result == old(EnterRunStep(task, key, sink)).result
    {
      hide EnterRun;
      result := runs[key].Enter(tasks[task], sink);
    }

    method EnterRunAlone(task: TaskKey, key: RunKey, sink: bool) returns (result: Result)
      requires TaskReady(task) && RunReady(key) && Distinct()
      modifies runs[key], channel, tasks[task]
      ensures RunDid(RunDone(task, key, old(EnterRunStep(task, key, sink))))
      ensures result == old(EnterRunStep(task, key, sink)).result
    {
      hide RunOk, TaskOk, TurnOk, RunIs, EnterRunStep;
      result := EnterRunObject(task, key, sink);
      assert RunsKept({key});
      hide RunsKept;
      assert TurnsKept({});
      hide TurnsKept;
      assert ToolsKept({});
      hide ToolsKept;
      assert TasksKept({task});
      hide TasksKept;
    }

    method BeginRun(task: TaskKey, key: RunKey, sink: bool) returns (result: Result)
      requires Valid() && task in tasks && key in runs
      modifies runs[key], channel, tasks[task]
      ensures Valid() && fresh(Repr() - old(Repr()))
      ensures CW.Step(World(), result) == CW.Next(old(World()), task, CW.BeginRun(key, sink))
    {
      hide CW.Next, World, Valid, Repr, StateObjects, RunOk, TaskOk, RunDid, Distinct;
      SeeTask(task);
      SeeRun(key);
      ObjectsAreDistinct();
      EnterRunIsWorlds(task, key, sink);
      hide TaskSeen, RunSeen;
      ghost var d := RunDone(task, key, EnterRunStep(task, key, sink));
      hide EnterRunStep;
      result := EnterRunAlone(task, key, sink);
      RunStepped(d);
    }

    ghost function ExitRunStep(task: TaskKey, key: RunKey, error: Option<Raised>, sink: bool): RunStep
      requires TaskReady(task) && RunReady(key)
      reads *
    {
      ExitRun(key, runs[key].View(), task, tasks[task].View(), channel.View(), error, sink)
    }

    lemma ExitRunIsWorlds(task: TaskKey, key: RunKey, error: Option<Raised>, sink: bool)
      requires TaskSeen(task) && RunSeen(key)
      ensures var w := World();
              CW.Next(w, task, CW.EndRun(key, error, sink))
                == CW.WithRun(w, task, key, ExitRunStep(task, key, error, sink))
    {
      hide World, ExitRun, CW.WithRun, RunOk, TaskOk;
      var s := CS.RunEnded(World(), task, CW.EndRun(key, error, sink));
    }

    method ExitRunObject(task: TaskKey, key: RunKey, error: Option<Raised>, sink: bool) returns (result: Result)
      requires TaskReady(task) && RunReady(key)
      modifies runs[key], channel, tasks[task]
      ensures RunIs(RunDone(task, key, old(ExitRunStep(task, key, error, sink))))
      ensures runs[key].entered == old(runs[key].entered)
      ensures result == old(ExitRunStep(task, key, error, sink)).result
    {
      hide ExitRun;
      result := runs[key].Exit(tasks[task], error, sink);
    }

    method ExitRunAlone(task: TaskKey, key: RunKey, error: Option<Raised>, sink: bool) returns (result: Result)
      requires TaskReady(task) && RunReady(key) && Distinct()
      modifies runs[key], channel, tasks[task]
      ensures RunDid(RunDone(task, key, old(ExitRunStep(task, key, error, sink))))
      ensures result == old(ExitRunStep(task, key, error, sink)).result
    {
      hide RunOk, TaskOk, TurnOk, RunIs, ExitRunStep;
      result := ExitRunObject(task, key, error, sink);
      assert RunsKept({key});
      hide RunsKept;
      assert TurnsKept({});
      hide TurnsKept;
      assert ToolsKept({});
      hide ToolsKept;
      assert TasksKept({task});
      hide TasksKept;
    }

    method EndRun(task: TaskKey, key: RunKey, error: Option<Raised>, sink: bool) returns (result: Result)
      requires Valid() && task in tasks && key in runs
      modifies runs[key], channel, tasks[task]
      ensures Valid() && fresh(Repr() - old(Repr()))
      ensures CW.Step(World(), result) == CW.Next(old(World()), task, CW.EndRun(key, error, sink))
    {
      hide CW.Next, World, Valid, Repr, StateObjects, RunOk, TaskOk, RunDid, Distinct;
      SeeTask(task);
      SeeRun(key);
      ObjectsAreDistinct();
      ExitRunIsWorlds(task, key, error, sink);
      hide TaskSeen, RunSeen;
      ghost var d := RunDone(task, key, ExitRunStep(task, key, error, sink));
      hide ExitRunStep;
      result := ExitRunAlone(task, key, error, sink);
      RunStepped(d);
    }

    // ---- Entering and closing turns ----

    // The objects of a turn, its owner and a task are as a turn step says.
    ghost predicate TurnIs(d: TurnDone)
      reads *
    {
      && TaskReady(d.task) && TurnReady(d.k) && d.s.turn.owner == turns[d.k].owner.key
      && turns[d.k].View() == d.s.turn && turns[d.k].owner.View() == d.s.run && tasks[d.task].View() == d.s.vars
      && channel.View() == d.s.channel
      && (d.s.state.Some? ==> turns[d.k].state != null && turns[d.k].state.View() == d.s.state.value)
    }

    twostate predicate TurnDid(d: TurnDone)
      reads *
    {
      && TurnIs(d) && Kept(Touched({d.s.turn.owner}, {d.k}, {}, {d.task})) && ids.next == old(ids.next)
      && d.k in old(turns) && d.k in turns
      && (d.s.state.None? ==>
            && turns[d.k].state == old(turns[d.k].state)
            && (turns[d.k].state != null ==> turns[d.k].state.View() == old(turns[d.k].state.View())))
    }

    twostate lemma TurnStepped(d: TurnDone)
      requires old(Valid()) && TurnDid(d)
      ensures Valid() && World() == CW.WithTurn(old(World()), d.task, d.k, d.s).world
      ensures fresh(Repr() - old(Repr()))
    {
      hide World, Kept, WorldSameBut, RunOk, TaskOk, TurnOk, Valid, SameAt, StateObjects, Repr;
      TurnKept(d);
      StateKept(d);
      TurnFacts(d);
      IdsAre(0);
      TurnWorld(old(World()), World(), d.task, d.k, d.s);
    }

    twostate lemma TurnKept(d: TurnDone)
      requires old(Valid()) && TurnDid(d)
      ensures Valid() && WorldSameBut(old(World()), World(), Touched({d.s.turn.owner}, {d.k}, {}, {d.task}))
      ensures fresh(Repr() - old(Repr()))
    {
      var t := Touched({d.s.turn.owner}, {d.k}, {}, {d.task});
      hide World, Kept, WorldSameBut, RunOk, TaskOk, TurnOk, Valid, StateObjects, Repr, TouchedOk, TurnIs;
      TurnStaysDistinct(d.k, t);
      TurnTouched(d);
      StaysValid(t);
      WorldKept(t);
      ReprGrows(t);
    }

    lemma TurnTouched(d: TurnDone)
      requires TurnIs(d)
      requires forall j :: j in turns && turns[j] == turns[d.k] ==> j == d.k
      ensures TouchedOk(Touched({d.s.turn.owner}, {d.k}, {}, {d.task}))
    {
      hide RunOk, TaskOk, TurnOk;
    }

    lemma TurnFacts(d: TurnDone)
      requires Valid() && TurnIs(d)
      ensures var w, s := World(), d.s;
              && d.k in w.turns && w.turns[d.k] == s.turn && d.task in w.tasks && w.tasks[d.task] == s.vars
              && s.turn.owner in w.runs && w.runs[s.turn.owner] == s.run && w.channel == s.channel
              && (s.state.Some? ==> d.k in w.states && w.states[d.k] == s.state.value)
    {
      SeeTask(d.task);
      SeeTurn(d.k);
    }

    // A turn that is kept is under no other key.
    twostate lemma TurnStaysDistinct(new k: TurnKey, t: Touched)
      requires old(Valid()) && k in old(turns) && Kept(t) && t.turns == {k}
      ensures k in turns && forall j :: j in turns && turns[j] == turns[k] ==> j == k
    {
    }

    // Without a new state the world has the state it had.
    twostate lemma StateKept(d: TurnDone)
      requires TurnDid(d)
      ensures d.s.state.None? ==> SameAt(old(World()).states, World().states, d.k)
    {
      hide RunOk, TaskOk, TurnOk, Kept;
    }

    ghost function EnterTurnStep(task: TaskKey, k: TurnKey, valid: bool, sink: bool): TurnStep
      requires TaskReady(task) && TurnReady(k)
      reads *
    {
      var turn := turns[k];
      EnterTurn(client, k, turn.View(), turn.owner.View(), task, tasks[task].View(), channel.View(), valid, sink)
    }

    lemma EnterTurnIsWorlds(task: TaskKey, k: TurnKey, valid: bool, sink: bool)
      requires TaskSeen(task) && TurnSeen(k)
      ensures var w, s := World(), EnterTurnStep(task, k, valid, sink);
              && CW.Next(w, task, CW.BeginTurn(k, valid, sink)) == CW.WithTurn(w, task, k, s)
              && (s.state.Some? <==> s.result == Done)
    {
      hide World, EnterTurn, CW.WithTurn, RunOk, TaskOk, TurnOk, Valid;
      var s := CS.TurnBegun(World(), task, CW.BeginTurn(k, valid, sink));
    }

    method EnterTurnObject(task: TaskKey, k: TurnKey, valid: bool, sink: bool) returns (result: Result)
      requires TaskReady(task) && TurnReady(k)
      requires var s := EnterTurnStep(task, k, valid, sink); s.state.Some? <==> s.result == Done
      modifies turns[k], turns[k].owner, channel, tasks[task]
      ensures TurnIs(TurnDone(task, k, old(EnterTurnStep(task, k, valid, sink))))
      ensures turns[k].owner.entered == old(turns[k].owner.entered)
      ensures result == old(EnterTurnStep(task, k, valid, sink)).result
      ensures old(turns[k].state) != null || result != Done ==> turns[k].state == old(turns[k].state)
      ensures turns[k].state == old(turns[k].state) || fresh(turns[k].state)
    {
      hide EnterTurn;
      result := turns[k].Enter(tasks[task], k, valid, sink);
    }

    method EnterTurnAlone(task: TaskKey, k: TurnKey, valid: bool, sink: bool) returns (result: Result)
      requires TaskReady(task) && TurnReady(k) && Distinct()
      requires var s := EnterTurnStep(task, k, valid, sink); s.state.Some? <==> s.result == Done
      modifies turns[k], turns[k].owner, channel, tasks[task]
      ensures TurnDid(TurnDone(task, k, old(EnterTurnStep(task, k, valid, sink))))
      ensures result == old(EnterTurnStep(task, k, valid, sink)).result
    {
      hide RunOk, TaskOk, TurnOk, TurnIs;
      ghost var d, owner := TurnDone(task, k, EnterTurnStep(task, k, valid, sink)), turns[k].owner.key;
      hide EnterTurnStep;
      result := EnterTurnObject(task, k, valid, sink);
      assert d.s.turn.owner == owner;
      assert RunsKept({owner});
      hide RunsKept;
      assert TurnsKept({k});
      hide TurnsKept;
      assert ToolsKept({});
      hide ToolsKept;
      assert TasksKept({task});
      hide TasksKept;
    }

    method BeginTurn(task: TaskKey, k: TurnKey, valid: bool, sink: bool) returns (result: Result)
      requires Valid() && task in tasks && k in turns
      modifies turns[k], turns[k].owner, channel, tasks[task]
      ensures Valid() && fresh(Repr() - old(Repr()))
      ensures CW.Step(World(), result) == CW.Next(old(World()), task, CW.BeginTurn(k, valid, sink))
    {
      hide CW.Next, World, Valid, Repr, StateObjects, RunOk, TaskOk, TurnOk, TurnDid, Distinct;
      SeeTask(task);
      SeeTurn(k);
      ObjectsAreDistinct();
      EnterTurnIsWorlds(task, k, valid, sink);
      ghost var d := TurnDone(task, k, EnterTurnStep(task, k, valid, sink));
      hide TaskSeen, TurnSeen, EnterTurnStep;
      result := EnterTurnAlone(task, k, valid, sink);
      TurnStepped(d);
    }

    // Closing a turn that was not entered changes nothing.
    ghost function ExitTurnStep(task: TaskKey, k: TurnKey, error: Option<Raised>, sink: bool): TurnStep
      requires TaskReady(task) && TurnReady(k)
      reads *
    {
      var turn, vars := turns[k], tasks[task];
      if turn.state == null then
        TurnStep(turn.View(), None, turn.owner.View(), vars.View(), channel.View(), NotEntered)
      else
        ExitTurn(client, turn.View(), turn.state.View(), turn.owner.View(), task, vars.View(), channel.View(), error,
            sink)
    }

    lemma ExitTurnIsWorlds(task: TaskKey, k: TurnKey, error: Option<Raised>, sink: bool)
      requires TaskSeen(task) && TurnSeen(k)
      ensures var w, s := World(), ExitTurnStep(task, k, error, sink);
              && CW.Next(w, task, CW.EndTurn(k, error, sink)) == CW.WithTurn(w, task, k, s)
              && (s.state.None? ==> turns[k].state == null)
    {
      hide World, ExitTurn, CW.WithTurn, RunOk, TaskOk, TurnOk;
      var w := World();
      if turns[k].state == null {
        NoTurnStep(w, task, k, NotEntered);
      } else {
        var s := CS.TurnEnded(w, task, CW.EndTurn(k, error, sink));
      }
    }

    method ExitTurnObject(task: TaskKey, k: TurnKey, error: Option<Raised>, sink: bool) returns (result: Result)
      requires TaskReady(task) && TurnReady(k)
      modifies turns[k], turns[k].state, turns[k].owner, channel, tasks[task]
      ensures TurnIs(TurnDone(task, k, old(ExitTurnStep(task, k, error, sink))))
      ensures turns[k].owner.entered == old(turns[k].owner.entered) && turns[k].state == old(turns[k].state)
      ensures result == old(ExitTurnStep(task, k, error, sink)).result
    {
      hide ExitTurn;
      result := turns[k].Exit(tasks[task], error, sink);
    }

    method ExitTurnAlone(task: TaskKey, k: TurnKey, error: Option<Raised>, sink: bool) returns (result: Result)
      requires TaskReady(task) && TurnReady(k) && Distinct()
      requires ExitTurnStep(task, k, error, sink).state.None? ==> turns[k].state == null
      modifies turns[k], turns[k].state, turns[k].owner, channel, tasks[task]
      ensures TurnDid(TurnDone(task, k, old(ExitTurnStep(task, k, error, sink))))
      ensures result == old(ExitTurnStep(task, k, error, sink)).result
    {
      hide RunOk, TaskOk, TurnOk, TurnIs;
      ghost var d, owner := TurnDone(task, k, ExitTurnStep(task, k, error, sink)), turns[k].owner.key;
      hide ExitTurnStep;
      result := ExitTurnObject(task, k, error, sink);
      assert d.s.turn.owner == owner;
      assert RunsKept({owner});
      hide RunsKept;
      assert TurnsKept({k});
      hide TurnsKept;
      assert ToolsKept({});
      hide ToolsKept;
      assert TasksKept({task});
      hide TasksKept;
    }

    method EndTurn(task: TaskKey, k: TurnKey, error: Option<Raised>, sink: bool) returns (result: Result)
      requires Valid() && task in tasks && k in turns
      modifies turns[k], turns[k].state, turns[k].owner, channel, tasks[task]
      ensures Valid() && fresh(Repr() - old(Repr()))
      ensures CW.Step(World(), result) == CW.Next(old(World()), task, CW.EndTurn(k, error, sink))
    {
      hide CW.Next, World, Valid, Repr, StateObjects, RunOk, TaskOk, TurnOk, TurnDid, Distinct;
      SeeTask(task);
      SeeTurn(k);
      ObjectsAreDistinct();
      ExitTurnIsWorlds(task, k, error, sink);
      ghost var d := TurnDone(task, k, ExitTurnStep(task, k, error, sink));
      hide TaskSeen, TurnSeen, ExitTurnStep;
      result := ExitTurnAlone(task, k, error, sink);
      TurnStepped(d);
    }

    // ---- Events ----

    // The objects of a turn and its owner, and of some tools, are as an event step says.
    ghost predicate EventIs(d: EventDone)
      reads *
    {
      && TurnReady(d.k) && turns[d.k].state != null && d.s.state.owner == turns[d.k].owner.key
      && turns[d.k].state.View() == d.s.state && turns[d.k].owner.View() == d.s.run && channel.View() == d.s.channel
      && (forall l :: l in d.touched ==> l in tools && l in d.tools && ToolOk(l) && tools[l].View() == d.tools[l])
    }

    // And a new event id was drawn.
    twostate predicate EventDid(d: EventDone)
      reads *
    {
      && EventIs(d) && Kept(Touched({d.s.state.owner}, {d.k}, d.touched, {})) && ids.next == old(ids.next) + 1
      && d.k in old(turns) && d.k in turns && turns[d.k].View() == old(turns[d.k].View())
    }

    twostate lemma EventStepped(d: EventDone)
      requires old(Valid()) && EventDid(d) && SameBut(old(World()).tools, d.tools, d.touched)
      ensures Valid() && World() == CW.WithEvent(old(World()).(tools := d.tools), d.k, d.s).world
      ensures fresh(Repr() - old(Repr()))
    {
      hide World, Kept, WorldSameBut, RunOk, ToolOk, TurnOk, Valid, SameAt, SameBut, StateObjects, Repr;
      EventKept(d);
      SameTurn(d);
      EventFacts(d);
      IdsAre(1);
      EventWorld(old(World()), World(), d);
    }

    twostate lemma EventKept(d: EventDone)
      requires old(Valid()) && EventDid(d)
      ensures Valid() && WorldSameBut(old(World()), World(), Touched({d.s.state.owner}, {d.k}, d.touched, {}))
      ensures fresh(Repr() - old(Repr()))
    {
      var t := Touched({d.s.state.owner}, {d.k}, d.touched, {});
      hide World, Kept, WorldSameBut, RunOk, ToolOk, TurnOk, Valid, StateObjects, Repr, TouchedOk, EventIs;
      TurnStaysDistinct(d.k, t);
      EventTouched(d);
      StaysValid(t);
      WorldKept(t);
      ReprGrows(t);
    }

    lemma EventTouched(d: EventDone)
      requires EventIs(d)
      requires forall j :: j in turns && turns[j] == turns[d.k] ==> j == d.k
      ensures TouchedOk(Touched({d.s.state.owner}, {d.k}, d.touched, {}))
    {
      hide RunOk, ToolOk, TurnOk;
    }

    twostate lemma SameTurn(d: EventDone)
      requires EventDid(d)
      ensures SameAt(old(World()).turns, World().turns, d.k)
    {
      hide EventIs, Kept;
    }

    lemma EventFacts(d: EventDone)
      requires Valid() && EventIs(d)
      ensures var w := World();
              && d.k in w.states && w.states[d.k] == d.s.state && w.channel == d.s.channel
              && d.s.state.owner in w.runs && w.runs[d.s.state.owner] == d.s.run
              && (forall l :: l in d.touched ==> l in w.tools && l in d.tools && w.tools[l] == d.tools[l])
    {
      SeeTurn(d.k);
      assert forall l :: l in d.touched ==> World().tools[l] == tools[l].View();
    }

    // ---- Events of tools ----

    // The objects of a tool, its turn and its owner are as a tool step says.
    ghost predicate ToolIs(l: ToolKey, s: ToolStep)
      reads *
    {
      && ToolReady(l) && tools[l].View() == s.tool && tools[l].turn.state.View() == s.event.state
      && tools[l].turn.owner.View() == s.event.run && channel.View() == s.event.channel
    }

    ghost function ToolDone(l: ToolKey, s: ToolStep, before: map<ToolKey, Tool>): EventDone
      requires ToolReady(l)
      reads *
    {
      EventDone(tools[l].turnKey, {l}, before[l := s.tool], s.event)
    }

    lemma ToolIsEvent(l: ToolKey, s: ToolStep, before: map<ToolKey, Tool>)
      requires ToolIs(l, s)
      ensures EventIs(ToolDone(l, s, before))
    {
    }

    ghost function EnterToolStep(task: TaskKey, l: ToolKey, valid: bool, sink: bool): ToolStep
      requires TaskReady(task) && ToolReady(l)
      reads *
    {
      var tool, vars := tools[l], tasks[task];
      EnterTool(l, tool.View(), tool.turn.View(), tool.turn.state.View(), tool.turn.owner.View(), task, vars.View(),
          channel.View(), valid, ids.next, sink)
    }

    lemma EnterToolIsWorlds(task: TaskKey, l: ToolKey, valid: bool, sink: bool)
      requires TaskSeen(task) && ToolSeen(l)
      ensures var w, s := World(), EnterToolStep(task, l, valid, sink);
              CW.Next(w, task, CW.BeginTool(l, valid, sink))
                == CW.WithEvent(w.(tools := w.tools[l := s.tool]), tools[l].turnKey, s.event)
    {
      hide World, EnterTool, CW.WithEvent, RunOk, TaskOk;
      var s := ToolBegun(World(), task, CW.BeginTool(l, valid, sink));
    }

    method EnterToolObject(task: TaskKey, l: ToolKey, valid: bool, sink: bool) returns (result: Result)
      requires TaskReady(task) && ToolReady(l)
      modifies ids, tools[l], tools[l].turn.state, tools[l].turn.owner, channel
      ensures ToolIs(l, old(EnterToolStep(task, l, valid, sink))) && ids.next == old(ids.next) + 1
      ensures tools[l].turn.owner.entered == old(tools[l].turn.owner.entered)
      ensures result == old(EnterToolStep(task, l, valid, sink)).event.result
    {
      hide EnterTool;
      var id := ids.Draw();
      result := tools[l].Enter(tasks[task], valid, id, sink);
    }

    method EnterToolAlone(task: TaskKey, l: ToolKey, valid: bool, sink: bool, ghost before: map<ToolKey, Tool>)
        returns (result: Result)
      requires TaskReady(task) && ToolReady(l) && Distinct()
      modifies ids, tools[l], tools[l].turn.state, tools[l].turn.owner, channel
      ensures EventDid(old(ToolDone(l, EnterToolStep(task, l, valid, sink), before)))
      ensures result == old(EnterToolStep(task, l, valid, sink)).event.result
    {
      hide RunOk, TaskOk, TurnOk, ToolOk, RunReady, ToolIs, EventIs;
      ghost var s, k, owner := EnterToolStep(task, l, valid, sink), tools[l].turnKey, tools[l].turn.owner.key;
      assert s.event.state.owner == owner;
      hide EnterToolStep;
      result := EnterToolObject(task, l, valid, sink);
      ToolIsEvent(l, s, before);
      assert RunsKept({owner});
      hide RunsKept;
      assert TurnsKept({k});
      hide TurnsKept;
      assert ToolsKept({l});
      hide ToolsKept;
      assert TasksKept({});
      hide TasksKept;
    }

    method BeginTool(task: TaskKey, l: ToolKey, valid: bool, sink: bool) returns (result: Result)
      requires Valid() && task in tasks && l in tools && tools[l].turn.state != null
      modifies ids, tools[l], tools[l].turn.state, tools[l].turn.owner, channel
      ensures Valid() && fresh(Repr() - old(Repr()))
      ensures CW.Step(World(), result) == CW.Next(old(World()), task, CW.BeginTool(l, valid, sink))
    {
      hide CW.Next, World, Valid, Repr, StateObjects, RunOk, TaskOk, TurnOk, ToolOk, EventDid, Distinct;
      SeeTask(task);
      SeeTool(l);
      ObjectsAreDistinct();
      EnterToolIsWorlds(task, l, valid, sink);
      ghost var w, s := World(), EnterToolStep(task, l, valid, sink);
      ghost var d := ToolDone(l, s, w.tools);
      hide TaskSeen, ToolSeen, EnterToolStep;
      result := EnterToolAlone(task, l, valid, sink, w.tools);
      EventStepped(d);
    }

    ghost function ExitToolStep(task: TaskKey, l: ToolKey, error: Option<Raised>, valid: bool, sink: bool): ToolStep
      requires TaskReady(task) && ToolReady(l)
      reads *
    {
      var tool, vars := tools[l], tasks[task];
      ExitTool(l, tool.View(), tool.turn.View(), tool.turn.state.View(), tool.turn.owner.View(), vars.View(),
          channel.View(), error, valid, ids.next, sink)
    }

    lemma ExitToolIsWorlds(task: TaskKey, l: ToolKey, error: Option<Raised>, valid: bool, sink: bool)
      requires TaskSeen(task) && ToolSeen(l)
      ensures var w, s := World(), ExitToolStep(task, l, error, valid, sink);
              CW.Next(w, task, CW.EndTool(l, error, valid, sink))
                == CW.WithEvent(w.(tools := w.tools[l := s.tool]), tools[l].turnKey, s.event)
    {
      hide World, ExitTool, CW.WithEvent, RunOk, TaskOk;
      var s := ToolEnded(World(), task, CW.EndTool(l, error, valid, sink));
    }

    method ExitToolObject(task: TaskKey, l: ToolKey, error: Option<Raised>, valid: bool, sink: bool)
        returns (result: Result)
      requires TaskReady(task) && ToolReady(l)
      modifies ids, tools[l], tools[l].turn.state, tools[l].turn.owner, channel
      ensures ToolIs(l, old(ExitToolStep(task, l, error, valid, sink))) && ids.next == old(ids.next) + 1
      ensures tools[l].turn.owner.entered == old(tools[l].turn.owner.entered)
      ensures result == old(ExitToolStep(task, l, error, valid, sink)).event.result
    {
      hide ExitTool;
      var id := ids.Draw();
      result := tools[l].Exit(tasks[task], error, valid, id, sink);
    }

    method ExitToolAlone(task: TaskKey, l: ToolKey, error: Option<Raised>, valid: bool, sink: bool,
        ghost before: map<ToolKey, Tool>)
        returns (result: Result)
      requires TaskReady(task) && ToolReady(l) && Distinct()
      modifies ids, tools[l], tools[l].turn.state, tools[l].turn.owner, channel
      ensures EventDid(old(ToolDone(l, ExitToolStep(task, l, error, valid, sink), before)))
      ensures result == old(ExitToolStep(task, l, error, valid, sink)).event.result
    {
      hide RunOk, TaskOk, TurnOk, ToolOk, RunReady, ToolIs, EventIs;
      ghost var s, k, owner := ExitToolStep(task, l, error, valid, sink), tools[l].turnKey, tools[l].turn.owner.key;
      assert s.event.state.owner == owner;
      hide ExitToolStep;
      result := ExitToolObject(task, l, error, valid, sink);
      ToolIsEvent(l, s, before);
      assert RunsKept({owner});
      hide RunsKept;
      assert TurnsKept({k});
      hide TurnsKept;
      assert ToolsKept({l});
      hide ToolsKept;
      assert TasksKept({});
      hide TasksKept;
    }

    method EndTool(task: TaskKey, l: ToolKey, error: Option<Raised>, valid: bool, sink: bool) returns (result: Result)
      requires Valid() && task in tasks && l in tools && tools[l].turn.state != null
      modifies ids, tools[l], tools[l].turn.state, tools[l].turn.owner, channel
      ensures Valid() && fresh(Repr() - old(Repr()))
      ensures CW.Step(World(), result) == CW.Next(old(World()), task, CW.EndTool(l, error, valid, sink))
    {
      hide CW.Next, World, Valid, Repr, StateObjects, RunOk, TaskOk, TurnOk, ToolOk, EventDid, Distinct;
      SeeTask(task);
      SeeTool(l);
      ObjectsAreDistinct();
      ExitToolIsWorlds(task, l, error, valid, sink);
      ghost var w, s := World(), ExitToolStep(task, l, error, valid, sink);
      ghost var d := ToolDone(l, s, w.tools);
      hide TaskSeen, ToolSeen, ExitToolStep;
      result := ExitToolAlone(task, l, error, valid, sink, w.tools);
      EventStepped(d);
    }

    // ---- Other events ----

    // Nothing changed for the world, though some objects were called.
    twostate predicate NothingDid(t: Touched)
      reads *
    {
      && Kept(t) && TouchedOk(t) && t.tools == {} && t.tasks == {}
      && ids.next == old(ids.next) && channel.View() == old(channel.View())
      && (forall r :: r in t.runs ==> r in old(runs) && r in runs && runs[r].View() == old(runs[r].View()))
      && (forall k :: k in t.turns ==>
            && k in old(turns) && k in turns && turns[k].View() == old(turns[k].View())
            && turns[k].state == old(turns[k].state)
            && (turns[k].state != null ==> turns[k].state.View() == old(turns[k].state.View())))
    }

    twostate lemma NothingStepped(t: Touched)
      requires old(Valid()) && NothingDid(t)
      ensures Valid() && World() == old(World())
      ensures fresh(Repr() - old(Repr()))
    {
      NothingMoved(t);
      hide World, Kept, WorldSameBut, Valid, StateObjects, Repr, TouchedOk;
      StaysValid(t);
      WorldKept(t);
      ReprGrows(t);
      SameWorld(old(World()), World(), t);
    }

    twostate lemma NothingMoved(t: Touched)
      requires NothingDid(t)
      ensures var w, w' := old(World()), World();
              && (forall r :: r in t.runs ==> SameAt(w.runs, w'.runs, r))
              && (forall k :: k in t.turns ==> SameAt(w.turns, w'.turns, k) && SameAt(w.states, w'.states, k))
              && w'.channel == w.channel && w'.eventIds == w.eventIds
    {
      hide Kept, TouchedOk;
    }

    // An event step on a turn and its owner, and no tool.
    ghost function TurnEvent(k: TurnKey, s: EventStep, before: map<ToolKey, Tool>): EventDone {
      EventDone(k, {}, before, s)
    }

    lemma KeepsTools(before: map<ToolKey, Tool>)
      ensures SameBut(before, before, {})
    {
    }

    ghost predicate StateReady(k: TurnKey)
      reads *
    {
      TurnReady(k) && turns[k].state != null && turns[k].state.owner == turns[k].owner && turns[k].state.key == k
    }

    ghost function TraceStep(k: TurnKey, trace: nat, failed: bool, valid: bool, sink: bool): EventStep
      requires StateReady(k)
      reads *
    {
      var draft := Draft(ModelCall, if failed then Failed else Completed, Some(trace), None, None);
      Record(turns[k].state.View(), turns[k].owner.View(), channel.View(), draft, valid, ids.next, sink)
    }

    lemma TraceIsWorlds(task: TaskKey, k: TurnKey, trace: nat, failed: bool, valid: bool, sink: bool)
      requires TaskSeen(task) && TurnSeen(k) && StateReady(k)
      ensures var w := World();
              CW.Next(w, task, CW.CaptureTrace(k, trace, failed, valid, sink))
                == CW.WithEvent(w.(tools := w.tools), k, TraceStep(k, trace, failed, valid, sink))
    {
      hide World, CR.Record, CW.WithEvent, RunOk, TaskOk;
      CS.EventNext(World(), task, CW.CaptureTrace(k, trace, failed, valid, sink));
    }

    method TraceObject(k: TurnKey, trace: nat, failed: bool, valid: bool, sink: bool,
        ghost before: map<ToolKey, Tool>) returns (result: Result)
      requires StateReady(k)
      modifies ids, turns[k].state, turns[k].owner, channel
      ensures EventIs(TurnEvent(k, old(TraceStep(k, trace, failed, valid, sink)), before))
      ensures turns[k].owner.entered == old(turns[k].owner.entered) && ids.next == old(ids.next) + 1
      ensures result == old(TraceStep(k, trace, failed, valid, sink)).result
    {
      hide CR.Record;
      var id := ids.Draw();
      result := turns[k].state.CaptureModelTrace(trace, failed, valid, id, sink);
    }

    method TraceAlone(k: TurnKey, trace: nat, failed: bool, valid: bool, sink: bool,
        ghost before: map<ToolKey, Tool>) returns (result: Result)
      requires StateReady(k) && Distinct()
      modifies ids, turns[k].state, turns[k].owner, channel
      ensures EventDid(TurnEvent(k, old(TraceStep(k, trace, failed, valid, sink)), before))
      ensures result == old(TraceStep(k, trace, failed, valid, sink)).result
    {
      hide RunOk, TaskOk, TurnOk, ToolOk, RunReady, EventIs;
      ghost var s, owner := TraceStep(k, trace, failed, valid, sink), turns[k].owner.key;
      assert s.state.owner == owner;
      hide TraceStep;
      result := TraceObject(k, trace, failed, valid, sink, before);
      assert RunsKept({owner});
      hide RunsKept;
      assert TurnsKept({k});
      hide TurnsKept;
      assert ToolsKept({});
      hide ToolsKept;
      assert TasksKept({});
      hide TasksKept;
    }

    method CaptureTrace(task: TaskKey, k: TurnKey, trace: nat, failed: bool, valid: bool, sink: bool)
        returns (result: Result)
      requires Valid() && task in tasks && k in turns && turns[k].state != null
      modifies ids, turns[k].state, turns[k].owner, channel
      ensures Valid() && fresh(Repr() - old(Repr()))
      ensures CW.Step(World(), result) == CW.Next(old(World()), task, CW.CaptureTrace(k, trace, failed, valid, sink))
    {
      SeeState(k);
      hide CW.Next, World, Valid, Repr, StateObjects, RunOk, TaskOk, TurnOk, ToolOk, EventDid, Distinct;
      SeeTask(task);
      SeeTurn(k);
      ObjectsAreDistinct();
      TraceIsWorlds(task, k, trace, failed, valid, sink);
      ghost var w, s := World(), TraceStep(k, trace, failed, valid, sink);
      hide TaskSeen, TurnSeen, TraceStep;
      result := TraceAlone(k, trace, failed, valid, sink, w.tools);
      KeepsTools(w.tools);
      hide SameBut;
      EventStepped(TurnEvent(k, s, w.tools));
    }

    lemma SeeState(k: TurnKey)
      requires Valid() && k in turns && turns[k].state != null
      ensures StateReady(k)
    {
      SeeTurn(k);
    }

    // An event on the active turn of a task; it is refused elsewhere.
    ghost predicate ActiveIn(task: TaskKey, k: TurnKey)
      reads *
    {
      task in tasks && StateReady(k) && turns[k].Active(tasks[task])
    }

    ghost function RecordStep(k: TurnKey, name: string, status: Status, valid: bool, sink: bool): (s: EventStep)
      requires StateReady(k)
      reads *
      ensures s.result != Inactive
    {
      var draft := Draft(Other(name), status, None, None, None);
      CR.Record(turns[k].state.View(), turns[k].owner.View(), channel.View(), draft, valid, ids.next, sink)
    }

    lemma RecordIsWorlds(task: TaskKey, k: TurnKey, name: string, status: Status, valid: bool, sink: bool)
      requires TaskSeen(task) && TurnSeen(k)
      ensures var w, op := World(), CW.RecordOnTurn(k, name, status, valid, sink);
              CW.Next(w, task, op) ==
                if ActiveIn(task, k) then CW.WithEvent(w.(tools := w.tools), k,
                    RecordStep(k, name, status, valid, sink))
                else CW.Step(w, Inactive)
    {
      hide World, CR.Record, CW.WithEvent, RunOk, TaskOk;
      CS.EventNext(World(), task, CW.RecordOnTurn(k, name, status, valid, sink));
    }

    method RecordObject(task: TaskKey, k: TurnKey, name: string, status: Status, valid: bool, sink: bool,
        ghost before: map<ToolKey, Tool>) returns (result: Result)
      requires TaskReady(task) && TurnReady(k) && ActiveIn(task, k)
      modifies ids, turns[k].state, turns[k].owner, channel
      ensures turns[k].owner.entered == old(turns[k].owner.entered) && ids.next == old(ids.next) + 1
      ensures var s := old(RecordStep(k, name, status, valid, sink));
              EventIs(TurnEvent(k, s, before)) && result == s.result
    {
      hide CR.Record;
      var id := ids.Draw();
      result := turns[k].Record(tasks[task], name, status, valid, id, sink);
    }

    method RecordAlone(task: TaskKey, k: TurnKey, name: string, status: Status, valid: bool, sink: bool,
        ghost before: map<ToolKey, Tool>) returns (result: Result)
      requires TaskReady(task) && TurnReady(k) && ActiveIn(task, k) && Distinct()
      modifies ids, turns[k].state, turns[k].owner, channel
      ensures var s := old(RecordStep(k, name, status, valid, sink));
              EventDid(TurnEvent(k, s, before)) && result == s.result
    {
      hide RunOk, TaskOk, TurnOk, ToolOk, RunReady, EventIs;
      ghost var owner := turns[k].owner.key;
      assert RecordStep(k, name, status, valid, sink).state.owner == owner;
      hide RecordStep;
      result := RecordObject(task, k, name, status, valid, sink, before);
      assert RunsKept({owner});
      hide RunsKept;
      assert TurnsKept({k});
      hide TurnsKept;
      assert ToolsKept({});
      hide ToolsKept;
      assert TasksKept({});
      hide TasksKept;
    }

    method RefusedObject(task: TaskKey, k: TurnKey, name: string, status: Status, valid: bool, sink: bool)
        returns (result: Result)
      requires TaskReady(task) && TurnReady(k) && !ActiveIn(task, k)
      modifies turns[k].state, turns[k].owner, channel
      ensures turns[k].owner.entered == old(turns[k].owner.entered)
      ensures CallsNothing(k) && result == Inactive
    {
      result := turns[k].Record(tasks[task], name, status, valid, ids.next, sink);
    }

    method RefusedAlone(task: TaskKey, k: TurnKey, name: string, status: Status, valid: bool, sink: bool)
        returns (result: Result)
      requires TaskReady(task) && TurnReady(k) && !ActiveIn(task, k) && Distinct()
      modifies turns[k].state, turns[k].owner, channel
      ensures CallsNothing(k) && Kept(Touched({turns[k].owner.key}, {k}, {}, {})) && result == Inactive
    {
      hide RunOk, TaskOk, TurnOk, ToolOk, RunReady, CallsNothing, ActiveIn;
      ghost var owner := turns[k].owner.key;
      result := RefusedObject(task, k, name, status, valid, sink);
      assert RunsKept({owner});
      hide RunsKept;
      assert TurnsKept({k});
      hide TurnsKept;
      assert ToolsKept({});
      hide ToolsKept;
      assert TasksKept({});
      hide TasksKept;
    }

    lemma ActiveIs(task: TaskKey, k: TurnKey)
      requires Valid() && task in tasks && k in turns
      ensures var vars := tasks[task];
              ActiveIn(task, k) <==> turns[k].token.Some? && vars.turn == turns[k].state
    {
      SeeTurn(k);
      assert TaskOk(task) && TurnOk(k);
    }

    // A call that left a turn and its owner as they were.
    twostate predicate CallsNothing(k: TurnKey)
      reads *
    {
      && TurnReady(k) && k in old(turns) && turns[k] == old(turns[k]) && turns[k].View() == old(turns[k].View())
      && turns[k].owner.key in old(runs) && turns[k].owner == old(runs[turns[k].owner.key])
      && turns[k].owner.View() == old(turns[k].owner.View()) && turns[k].state == old(turns[k].state)
      && (turns[k].state != null ==> turns[k].state.View() == old(turns[k].state.View()))
      && ids.next == old(ids.next) && channel.View() == old(channel.View())
    }

    twostate lemma NothingCalled(new k: TurnKey)
      requires old(Valid()) && CallsNothing(k) && Kept(Touched({turns[k].owner.key}, {k}, {}, {}))
      ensures Valid() && World() == old(World())
      ensures fresh(Repr() - old(Repr()))
    {
      var t := Touched({turns[k].owner.key}, {k}, {}, {});
      hide RunOk, TurnOk, Kept, World, Valid, TouchedOk, StateObjects, Repr, CallsNothing;
      TurnStaysDistinct(k, t);
      CalledTouched(k);
      NothingDone(k, t);
      hide NothingDid;
      NothingStepped(t);
    }

    twostate lemma CalledTouched(new k: TurnKey)
      requires CallsNothing(k) && forall j :: j in turns && turns[j] == turns[k] ==> j == k
      ensures TouchedOk(Touched({turns[k].owner.key}, {k}, {}, {}))
    {
      hide RunOk, TurnOk;
    }

    twostate lemma NothingDone(new k: TurnKey, t: Touched)
      requires CallsNothing(k) && t == Touched({turns[k].owner.key}, {k}, {}, {}) && Kept(t) && TouchedOk(t)
      ensures NothingDid(t)
    {
      hide RunOk, TurnOk, Kept, TouchedOk;
    }

    method RecordOnTurn(task: TaskKey, k: TurnKey, name: string, status: Status, valid: bool, sink: bool)
        returns (result: Result)
      requires Valid() && task in tasks && k in turns
      modifies ids, turns[k].state, turns[k].owner, channel
      ensures Valid() && fresh(Repr() - old(Repr()))
      ensures CW.Step(World(), result) == CW.Next(old(World()), task, CW.RecordOnTurn(k, name, status, valid, sink))
    {
      hide CW.Next, World, Valid, Repr, StateObjects, RunOk, TaskOk, TurnOk, ToolOk, EventDid, Distinct, CallsNothing,
          Kept;
      SeeTask(task);
      SeeTurn(k);
      ObjectsAreDistinct();
      RecordIsWorlds(task, k, name, status, valid, sink);
      ghost var w := World();
      ActiveIs(task, k);
      hide TaskSeen, TurnSeen, RecordStep, ActiveIn;
      KeepsTools(w.tools);
      hide SameBut;
      // Both branches make the same call.
      var vars := tasks[task];
      if turns[k].token.Some? && vars.turn == turns[k].state {
        result := RecordAlone(task, k, name, status, valid, sink, w.tools);
        EventStepped(TurnEvent(k, old(RecordStep(k, name, status, valid, sink)), w.tools));
      } else {
        result := RefusedAlone(task, k, name, status, valid, sink);
        NothingCalled(k);
      }
    }

    // ---- Outcomes ----

    // A run that knows its latest turn.
    ghost predicate LatestReady(key: RunKey)
      reads *
    {
      && RunReady(key)
      && var latest := runs[key].latestTurn;
         latest != null ==> StateReady(latest.key) && turns[latest.key].state == latest && latest.owner == runs[key]
    }

    lemma SeeLatest(key: RunKey)
      requires Valid() && key in runs
      ensures LatestReady(key)
    {
      assert RunOk(key);
      var latest := runs[key].latestTurn;
      if latest != null {
        SeeTurn(latest.key);
      }
    }

    ghost predicate HasOutcome(task: TaskKey, key: RunKey)
      reads *
    {
      task in tasks && LatestReady(key) && runs[key].latestTurn != null
      && RunActive(key, runs[key].View(), tasks[task].View())
    }

    ghost function OutcomeStep(key: RunKey, refused: bool, valid: bool, sink: bool): (s: EventStep)
      requires LatestReady(key) && runs[key].latestTurn != null
      reads *
      ensures s.result != Inactive && s.result != NoTurnYet
    {
      var draft := Draft(Outcome, if refused then Failed else Completed, None, None, None);
      CR.Record(runs[key].latestTurn.View(), runs[key].View(), channel.View(), draft, valid, ids.next, sink)
    }

    lemma OutcomeIsWorlds(task: TaskKey, key: RunKey, refused: bool, valid: bool, sink: bool)
      requires TaskSeen(task) && RunSeen(key) && LatestReady(key)
      requires runs[key].latestTurn != null ==> TurnSeen(runs[key].latestTurn.key)
      ensures var w, s := World(), CW.Next(World(), task, CW.RecordBusinessOutcome(key, refused, valid, sink));
              if HasOutcome(task, key) then
                s == CW.WithEvent(w.(tools := w.tools), runs[key].latestTurn.key,
                    OutcomeStep(key, refused, valid, sink))
              else
                s == CW.Step(w, if RunActive(key, runs[key].View(), tasks[task].View()) then NoTurnYet else Inactive)
    {
      hide World, CR.Record, CW.WithEvent, RunOk, TaskOk, TurnOk, Valid;
      var w := World();
      CS.EventNext(w, task, CW.RecordBusinessOutcome(key, refused, valid, sink));
      if HasOutcome(task, key) {
        OutcomeNext(w, w.tasks[task], key, refused, valid, sink, task);
      } else {
        NoOutcomeNext(w, w.tasks[task], key, refused, valid, sink, task);
      }
    }

    // A call that left a run as it was.
    twostate predicate CallsNoRun(key: RunKey)
      reads *
    {
      && RunReady(key) && key in old(runs) && runs[key] == old(runs[key]) && runs[key].View() == old(runs[key].View())
      && ids.next == old(ids.next) && channel.View() == old(channel.View()) && Kept(Touched({key}, {}, {}, {}))
    }

    twostate lemma NoRunCalled(new key: RunKey)
      requires old(Valid()) && CallsNoRun(key)
      ensures Valid() && World() == old(World())
      ensures fresh(Repr() - old(Repr()))
    {
      hide RunOk, Kept, World, Valid;
      assert TouchedOk(Touched({key}, {}, {}, {}));
      hide TouchedOk;
      NothingStepped(Touched({key}, {}, {}, {}));
    }

    method OutcomeObject(task: TaskKey, key: RunKey, refused: bool, valid: bool, sink: bool,
        ghost before: map<ToolKey, Tool>) returns (result: Result)
      requires TaskReady(task) && LatestReady(key) && HasOutcome(task, key)
      modifies ids, runs[key], runs[key].latestTurn, channel
      ensures runs[key].entered == old(runs[key].entered) && ids.next == old(ids.next) + 1
      ensures runs[key].latestTurn == old(runs[key].latestTurn)
      ensures var s := old(OutcomeStep(key, refused, valid, sink));
              EventIs(TurnEvent(old(runs[key].latestTurn.key), s, before)) && result == s.result
    {
      hide CR.Record;
      var id := ids.Draw();
      result := runs[key].RecordBusinessOutcome(tasks[task], refused, valid, id, sink);
    }

    method OutcomeAlone(task: TaskKey, key: RunKey, refused: bool, valid: bool, sink: bool,
        ghost before: map<ToolKey, Tool>) returns (result: Result)
      requires TaskReady(task) && LatestReady(key) && HasOutcome(task, key) && Distinct()
      modifies ids, runs[key], runs[key].latestTurn, channel
      ensures var s := old(OutcomeStep(key, refused, valid, sink));
              EventDid(TurnEvent(old(runs[key].latestTurn.key), s, before)) && result == s.result
    {
      hide RunOk, TaskOk, TurnOk, ToolOk, EventIs;
      ghost var k := runs[key].latestTurn.key;
      assert OutcomeStep(key, refused, valid, sink).state.owner == key;
      hide OutcomeStep, HasOutcome;
      result := OutcomeObject(task, key, refused, valid, sink, before);
      assert RunsKept({key});
      hide RunsKept;
      assert TurnsKept({k});
      hide TurnsKept;
      assert ToolsKept({});
      hide ToolsKept;
      assert TasksKept({});
      hide TasksKept;
    }

    // Without a turn yet, or outside of the active run.
    method NoTurnAlone(task: TaskKey, key: RunKey, refused: bool, valid: bool, sink: bool) returns (result: Result)
      requires TaskReady(task) && RunReady(key) && runs[key].latestTurn == null && Distinct()
      modifies runs[key], channel
      ensures CallsNoRun(key)
      ensures result == if RunActive(key, old(runs[key].View()), old(tasks[task].View())) then NoTurnYet else Inactive
    {
      result := runs[key].RecordBusinessOutcome(tasks[task], refused, valid, ids.next, sink);
      hide RunOk, TaskOk, TurnOk, ToolOk;
      assert RunsKept({key});
      hide RunsKept;
      assert TurnsKept({});
      hide TurnsKept;
      assert ToolsKept({});
      hide ToolsKept;
      assert TasksKept({});
      hide TasksKept;
    }

    method InactiveObject(task: TaskKey, key: RunKey, refused: bool, valid: bool, sink: bool) returns (result: Result)
      requires TaskReady(task) && LatestReady(key) && runs[key].latestTurn != null && !HasOutcome(task, key)
      modifies runs[key], runs[key].latestTurn, channel
      ensures CallsNothing(old(runs[key].latestTurn.key)) && runs[key].entered == old(runs[key].entered)
      ensures result == Inactive
    {
      result := runs[key].RecordBusinessOutcome(tasks[task], refused, valid, ids.next, sink);
    }

    method InactiveAlone(task: TaskKey, key: RunKey, refused: bool, valid: bool, sink: bool) returns (result: Result)
      requires TaskReady(task) && LatestReady(key) && runs[key].latestTurn != null && !HasOutcome(task, key)
      requires Distinct()
      modifies runs[key], runs[key].latestTurn, channel
      ensures var k := old(runs[key].latestTurn.key);
              && k in turns && turns[k].owner.key == key && CallsNothing(k) && Kept(Touched({key}, {k}, {}, {}))
      ensures result == Inactive
    {
      ghost var k := runs[key].latestTurn.key;
      hide RunOk, TaskOk, TurnOk, ToolOk, CallsNothing;
      result := InactiveObject(task, key, refused, valid, sink);
      assert RunsKept({key});
      hide RunsKept;
      assert TurnsKept({k});
      hide TurnsKept;
      assert ToolsKept({});
      hide ToolsKept;
      assert TasksKept({});
      hide TasksKept;
    }

    method RecordBusinessOutcome(task: TaskKey, key: RunKey, refused: bool, valid: bool, sink: bool)
        returns (result: Result)
      requires Valid() && task in tasks && key in runs
      modifies ids, runs[key], runs[key].latestTurn, channel
      ensures Valid() && fresh(Repr() - old(Repr()))
      ensures CW.Step(World(), result)
           == CW.Next(old(World()), task, CW.RecordBusinessOutcome(key, refused, valid, sink))
    {
      SeeLatest(key);
      hide CW.Next, World, Valid, Repr, StateObjects, RunOk, TaskOk, TurnOk, ToolOk, EventDid, Distinct, CallsNothing,
          CallsNoRun, Kept;
      SeeTask(task);
      SeeRun(key);
      if runs[key].latestTurn != null {
        SeeTurn(runs[key].latestTurn.key);
      }
      ObjectsAreDistinct();
      OutcomeIsWorlds(task, key, refused, valid, sink);
      ghost var w := World();
      hide TaskSeen, TurnSeen, RunSeen, OutcomeStep;
      KeepsTools(w.tools);
      hide SameBut;
      if runs[key].latestTurn == null {
        result := NoTurnAlone(task, key, refused, valid, sink);
        NoRunCalled(key);
      } else {
        ghost var k, step := runs[key].latestTurn.key, OutcomeStep(key, refused, valid, sink);
        var active := runs[key].open && tasks[task].run == runs[key];
        if active {
          result := OutcomeAlone(task, key, refused, valid, sink, w.tools);
          EventStepped(TurnEvent(k, step, w.tools));
        } else {
          result := InactiveAlone(task, key, refused, valid, sink);
          NothingCalled(k);
        }
      }
    }

    // ---- Making objects, keeping an output and forking ----

    twostate predicate SmallDid(t: Touched)
      reads *
    {
      Kept(t) && TouchedOk(t) && ids.next == old(ids.next) && channel.View() == old(channel.View())
    }

    twostate lemma SmallStepped(t: Touched)
      requires old(Valid()) && SmallDid(t)
      ensures Valid() && WorldSameBut(old(World()), World(), t)
      ensures World().channel == old(World()).channel && World().eventIds == old(World()).eventIds
      ensures fresh(Repr() - old(Repr()))
    {
      SameRest(t);
      hide World, Kept, WorldSameBut, Valid, StateObjects, Repr, TouchedOk;
      StaysValid(t);
      WorldKept(t);
      ReprGrows(t);
    }

    twostate lemma SameRest(t: Touched)
      requires SmallDid(t)
      ensures World().channel == old(World()).channel && World().eventIds == old(World()).eventIds
    {
      hide Kept, TouchedOk;
    }

    method RunObject(key: RunKey, config: RunConfig)
      requires key !in runs
      modifies this`runs
      ensures key in runs && fresh(runs[key]) && runs == old(runs)[key := runs[key]]
      ensures RunReady(key) && runs[key].View() == NewRun(key, config)
    {
      var run := new CC.AgentRunContext(key, client, channel, config);
      runs := runs[key := run];
    }

    lemma RunIsMade(key: RunKey)
      requires RunReady(key)
      ensures TouchedOk(Touched({key}, {}, {}, {}))
    {
    }

    method MakeRun(key: RunKey, config: RunConfig)
      requires key !in runs
      modifies this`runs
      ensures key in runs && fresh(runs[key]) && runs == old(runs)[key := runs[key]]
      ensures RunReady(key) && runs[key].View() == NewRun(key, config)
      ensures SmallDid(Touched({key}, {}, {}, {}))
    {
      hide TouchedOk, RunReady;
      RunObject(key, config);
      RunIsMade(key);
      assert RunsKept({key});
      hide RunsKept;
      assert TurnsKept({});
      hide TurnsKept;
      assert ToolsKept({});
      hide ToolsKept;
      assert TasksKept({});
      hide TasksKept;
    }

    method CreateRun(task: TaskKey, key: RunKey, config: RunConfig) returns (result: Result)
      requires Valid() && task in tasks && key !in runs
      modifies this`runs
      ensures Valid() && fresh(Repr() - old(Repr()))
      ensures CW.Step(World(), result) == CW.Next(old(World()), task, CW.CreateRun(key, config))
    {
      hide CW.Next, World, Valid, Repr, StateObjects, RunOk, TaskOk, TurnOk, ToolOk, SmallDid, WorldSameBut;
      ghost var w := World();
      CreateRunIsWorlds(task, key, config);
      if config.name == "" {
        return Invalid;
      }
      MakeRun(key, config);
      SmallStepped(Touched({key}, {}, {}, {}));
      SeeRun(key);
      RunMade(w, World(), key, config);
      result := Done;
    }

    lemma CreateRunIsWorlds(task: TaskKey, key: RunKey, config: RunConfig)
      requires Valid() && task in tasks && key !in runs
      ensures var w := World();
              && key !in w.runs
              && CW.Next(w, task, CW.CreateRun(key, config)) ==
                   if config.name == "" then CW.Step(w, Invalid)
                   else CW.Step(w.(runs := w.runs[key := NewRun(key, config)]), Done)
    {
    }

    // Whether a run is the active one of a task, as the run itself finds out.
    predicate RunsIn(task: TaskKey, run: RunKey)
      requires task in tasks && run in runs
      reads this, tasks.Values, runs.Values
    {
      runs[run].open && tasks[task].run == runs[run]
    }

    lemma RunsInIs(task: TaskKey, run: RunKey)
      requires TaskReady(task) && RunReady(run)
      ensures RunsIn(task, run) == RunActive(run, runs[run].View(), tasks[task].View())
    {
    }

    method TurnObject(task: TaskKey, key: TurnKey, run: RunKey, request: string)
      requires TaskReady(task) && RunReady(run) && key !in turns && RunsIn(task, run)
      modifies this`turns
      ensures key in turns && fresh(turns[key]) && turns == old(turns)[key := turns[key]] && TurnReady(key)
      ensures turns[key].View() == NewTurn(run, request) && turns[key].state == null
      ensures forall j :: j in turns && turns[j] == turns[key] ==> j == key
    {
      var turn := runs[run].Turn(tasks[task], request);
      turns := turns[key := turn];
      hide TaskOk;
    }

    method MakeTurn(task: TaskKey, key: TurnKey, run: RunKey, request: string)
      requires TaskReady(task) && RunReady(run) && key !in turns && RunsIn(task, run)
      modifies this`turns
      ensures TurnReady(key) && turns[key].View() == NewTurn(run, request) && turns[key].state == null
      ensures SmallDid(Touched({}, {key}, {}, {}))
    {
      hide RunOk, TaskOk, TurnOk, TouchedOk, TurnReady, RunsIn;
      TurnObject(task, key, run, request);
      TurnIsMade(key);
      assert RunsKept({});
      hide RunsKept;
      assert TurnsKept({key});
      hide TurnsKept;
      assert ToolsKept({});
      hide ToolsKept;
      assert TasksKept({});
      hide TasksKept;
    }

    method RefuseTurn(task: TaskKey, run: RunKey, request: string)
      requires TaskReady(task) && RunReady(run) && !RunsIn(task, run)
      ensures SmallDid(Touched({}, {}, {}, {}))
    {
      var refused := runs[run].Turn(tasks[task], request);
      assert refused == null;
      hide RunOk, TaskOk, TurnOk, RunsIn;
      assert RunsKept({}) && TurnsKept({}) && ToolsKept({}) && TasksKept({});
    }

    lemma TurnIsMade(key: TurnKey)
      requires TurnReady(key) && forall j :: j in turns && turns[j] == turns[key] ==> j == key
      ensures TouchedOk(Touched({}, {key}, {}, {}))
    {
      hide RunOk, TurnOk;
    }

    method CreateTurn(task: TaskKey, key: TurnKey, run: RunKey, request: string) returns (result: Result)
      requires Valid() && task in tasks && key !in turns && run in runs
      modifies this`turns
      ensures Valid() && fresh(Repr() - old(Repr()))
      ensures CW.Step(World(), result) == CW.Next(old(World()), task, CW.CreateTurn(key, run, request))
    {
      hide CW.Next, World, Valid, Repr, StateObjects, RunOk, TaskOk, TurnOk, ToolOk, SmallDid, WorldSameBut;
      ghost var w := World();
      SeeTask(task);
      SeeRun(run);
      CreateTurnIsWorlds(task, key, run, request);
      RunsInIs(task, run);
      hide TaskSeen, RunSeen, RunActive;
      if !RunsIn(task, run) {
        RefuseTurn(task, run, request);
        SmallStepped(Touched({}, {}, {}, {}));
        NothingMade(w, World());
        return Inactive;
      }
      MakeTurn(task, key, run, request);
      SmallStepped(Touched({}, {key}, {}, {}));
      SeeTurn(key);
      TurnMade(w, World(), key, run, request);
      result := Done;
    }

    lemma CreateTurnIsWorlds(task: TaskKey, key: TurnKey, run: RunKey, request: string)
      requires TaskSeen(task) && RunSeen(run) && key !in turns
      ensures var w := World();
              && key !in w.turns && key !in w.states
              && CW.Next(w, task, CW.CreateTurn(key, run, request)) ==
                   if !RunActive(run, runs[run].View(), tasks[task].View()) then CW.Step(w, Inactive)
                   else CW.Step(w.(turns := w.turns[key := NewTurn(run, request)]), Done)
    {
    }

    method ToolObject(task: TaskKey, key: ToolKey, k: TurnKey, callId: string, valid: bool) returns (result: Result)
      requires TaskReady(task) && TurnReady(k) && key !in tools
      modifies this`tools
      ensures result == if !old(ActiveIn(task, k)) then Inactive else if !valid then Invalid else Done
      ensures result != Done ==> tools == old(tools)
      ensures result == Done ==>
                key in tools && fresh(tools[key]) && tools == old(tools)[key := tools[key]] && ToolReady(key)
      ensures result == Done ==> tools[key].View() == NewTool(k, callId)
    {
      var tool;
      tool, result := turns[k].Tool(tasks[task], key, callId, valid);
      if tool != null {
        tools := tools[key := tool];
        hide TaskOk;
      }
    }

    method MakeTool(task: TaskKey, key: ToolKey, k: TurnKey, callId: string, valid: bool) returns (result: Result)
      requires TaskReady(task) && TurnReady(k) && key !in tools
      modifies this`tools
      ensures result == if !old(ActiveIn(task, k)) then Inactive else if !valid then Invalid else Done
      ensures result == Done ==> ToolReady(key) && tools[key].View() == NewTool(k, callId)
      ensures SmallDid(Touched({}, {}, if result == Done then {key} else {}, {}))
    {
      hide RunOk, TaskOk, TurnOk, ToolOk, TouchedOk, ToolReady, ActiveIn;
      result := ToolObject(task, key, k, callId, valid);
      ToolIsMade(key, if result == Done then {key} else {});
      assert RunsKept({});
      hide RunsKept;
      assert TurnsKept({});
      hide TurnsKept;
      assert ToolsKept(if result == Done then {key} else {});
      hide ToolsKept;
      assert TasksKept({});
      hide TasksKept;
    }

    lemma ToolIsMade(key: ToolKey, made: set<ToolKey>)
      requires made <= {key} && (key in made ==> ToolReady(key))
      ensures TouchedOk(Touched({}, {}, made, {}))
    {
      hide TurnReady;
    }

    method CreateTool(task: TaskKey, key: ToolKey, k: TurnKey, callId: string, valid: bool) returns (result: Result)
      requires Valid() && task in tasks && key !in tools && k in turns
      modifies this`tools
      ensures Valid() && fresh(Repr() - old(Repr()))
      ensures CW.Step(World(), result) == CW.Next(old(World()), task, CW.CreateTool(key, k, callId, valid))
    {
      hide CW.Next, World, Valid, Repr, StateObjects, RunOk, TaskOk, TurnOk, ToolOk, SmallDid, WorldSameBut;
      ghost var w := World();
      SeeTask(task);
      SeeTurn(k);
      ObjectsAreDistinct();
      CreateToolIsWorlds(task, key, k, callId, valid);
      hide TaskSeen, TurnSeen, Distinct, ActiveIn;
      result := MakeTool(task, key, k, callId, valid);
      SmallStepped(Touched({}, {}, if result == Done then {key} else {}, {}));
      if result == Done {
        SeeTool(key);
        ToolMade(w, World(), key, k, callId);
      } else {
        NothingMade(w, World());
      }
    }

    lemma CreateToolIsWorlds(task: TaskKey, key: ToolKey, k: TurnKey, callId: string, valid: bool)
      requires TaskSeen(task) && TurnSeen(k) && key !in tools
      ensures var w := World();
              && key !in w.tools
              && CW.Next(w, task, CW.CreateTool(key, k, callId, valid)) ==
                   if !ActiveIn(task, k) then CW.Step(w, Inactive) else if !valid then CW.Step(w, Invalid)
                   else CW.Step(w.(tools := w.tools[key := NewTool(k, callId)]), Done)
    {
    }

    method OutputObject(task: TaskKey, k: TurnKey, text: Option<string>) returns (result: Result)
      requires TaskReady(task) && TurnReady(k)
      modifies turns[k]
      ensures TurnReady(k) && turns[k].state == old(turns[k].state)
      ensures result == if !old(ActiveIn(task, k)) then Inactive else if text.None? then Invalid else Done
      ensures turns[k].View() == old(turns[k].View()).(output := if result == Done then text else old(turns[k].output))
    {
      result := turns[k].SetOutput(tasks[task], text);
    }

    method OutputAlone(task: TaskKey, k: TurnKey, text: Option<string>) returns (result: Result)
      requires TaskReady(task) && TurnReady(k) && Distinct()
      modifies turns[k]
      ensures TurnReady(k) && turns[k].state == old(turns[k].state)
      ensures result == if !old(ActiveIn(task, k)) then Inactive else if text.None? then Invalid else Done
      ensures turns[k].View() == old(turns[k].View()).(output := if result == Done then text else old(turns[k].output))
      ensures SmallDid(Touched({}, {k}, {}, {}))
    {
      hide RunOk, TaskOk, TurnOk, ToolOk, ActiveIn;
      result := OutputObject(task, k, text);
      assert RunsKept({});
      hide RunsKept;
      assert TurnsKept({k});
      hide TurnsKept;
      assert ToolsKept({});
      hide ToolsKept;
      assert TasksKept({});
      hide TasksKept;
    }

    method SetTurnOutput(task: TaskKey, k: TurnKey, text: Option<string>) returns (result: Result)
      requires Valid() && task in tasks && k in turns
      modifies turns[k]
      ensures Valid() && fresh(Repr() - old(Repr()))
      ensures CW.Step(World(), result) == CW.Next(old(World()), task, CW.SetTurnOutput(k, text))
    {
      hide CW.Next, World, Valid, Repr, StateObjects, RunOk, TaskOk, TurnOk, ToolOk, SmallDid, WorldSameBut;
      ghost var w := World();
      SeeTask(task);
      SeeTurn(k);
      ObjectsAreDistinct();
      SetOutputIsWorlds(task, k, text);
      ghost var turn := turns[k].View();
      assert w.turns[k] == turn;
      hide TaskSeen, Distinct, ActiveIn, TurnSeen;
      result := OutputAlone(task, k, text);
      SmallStepped(Touched({}, {k}, {}, {}));
      SeeOutput(k);
      StateStays(k);
      OutputKept(w, World(), k, turns[k].View());
    }

    twostate lemma StateStays(new k: TurnKey)
      requires k in turns && k in old(turns) && turns[k].state == old(turns[k].state)
      requires turns[k].state != null ==> turns[k].state.View() == old(turns[k].state.View())
      ensures SameAt(old(World()).states, World().states, k)
    {
    }

    lemma SeeOutput(k: TurnKey)
      requires Valid() && k in turns
      ensures k in World().turns && World().turns[k] == turns[k].View()
    {
    }

    lemma SetOutputIsWorlds(task: TaskKey, k: TurnKey, text: Option<string>)
      requires TaskSeen(task) && TurnSeen(k)
      ensures var w := World();
              && k in w.turns
              && CW.Next(w, task, CW.SetTurnOutput(k, text)) ==
                   if !ActiveIn(task, k) then CW.Step(w, Inactive) else if text.None? then CW.Step(w, Invalid)
                   else CW.Step(w.(turns := w.turns[k := w.turns[k].(output := text)]), Done)
    {
    }

    method TaskObject(task: TaskKey, child: TaskKey)
      requires TaskReady(task) && child !in tasks
      modifies this`tasks
      ensures child in tasks && fresh(tasks[child]) && tasks == old(tasks)[child := tasks[child]] && TaskReady(child)
      ensures tasks[child].View() == old(tasks[task].View())
    {
      var vars := new CC.ContextVars(child);
      vars.run, vars.turn := tasks[task].run, tasks[task].turn;
      tasks := tasks[child := vars];
    }

    lemma TaskIsMade(child: TaskKey)
      requires TaskReady(child)
      ensures TouchedOk(Touched({}, {}, {}, {child}))
    {
    }

    method MakeTask(task: TaskKey, child: TaskKey)
      requires TaskReady(task) && child !in tasks
      modifies this`tasks
      ensures tasks.Keys == old(tasks.Keys) + {child} && TaskReady(child)
      ensures tasks[child].View() == old(tasks[task].View()) && SmallDid(Touched({}, {}, {}, {child}))
    {
      hide TouchedOk, TaskReady, TaskOk;
      TaskObject(task, child);
      TaskIsMade(child);
      assert RunsKept({});
      hide RunsKept;
      assert TurnsKept({});
      hide TurnsKept;
      assert ToolsKept({});
      hide ToolsKept;
      assert TasksKept({child});
      hide TasksKept;
    }

    // A forked task begins with a copy of the variables.
    method Fork(task: TaskKey, child: TaskKey) returns (result: Result)
      requires Valid() && task in tasks && child !in tasks
      modifies this`tasks
      ensures Valid() && fresh(Repr() - old(Repr()))
      ensures CW.Step(World(), result) == CW.Next(old(World()), task, CW.Fork(child))
    {
      hide CW.Next, World, Valid, Repr, StateObjects, RunOk, TaskOk, TurnOk, ToolOk, SmallDid, WorldSameBut;
      ghost var w := World();
      SeeTask(task);
      ForkIsWorlds(task, child);
      hide TaskSeen;
      MakeTask(task, child);
      SmallStepped(Touched({}, {}, {}, {child}));
      SeeTask(child);
      SeeVars(child);
      TaskMade(w, World(), child, tasks[child].View());
      result := Done;
    }

    lemma SeeVars(task: TaskKey)
      requires Valid() && task in tasks
      ensures task in World().tasks && World().tasks[task] == tasks[task].View()
    {
    }

    lemma ForkIsWorlds(task: TaskKey, child: TaskKey)
      requires TaskSeen(task) && child !in tasks
      ensures var w := World();
              && child !in w.tasks
              && CW.Next(w, task, CW.Fork(child)) == CW.Step(w.(tasks := w.tasks[child := tasks[task].View()]), Done)
    {
    }

    // ---- Any call ----

    // The objects that a call is about exist, and those it makes do not.
    predicate Present(c: CW.Call)
      reads this, turns.Values
    {
      && c.task in tasks
      && (c.op.CreateRun? ==> c.op.run !in runs)
      && (c.op.BeginRun? || c.op.EndRun? || c.op.RecordBusinessOutcome? ==> c.op.run in runs)
      && (c.op.CreateTurn? ==> c.op.turn !in turns && c.op.run in runs)
      && (c.op.BeginTurn? || c.op.EndTurn? || c.op.SetTurnOutput? || c.op.RecordOnTurn? ==> c.op.turn in turns)
      && (c.op.CaptureTrace? ==> c.op.turn in turns && turns[c.op.turn].state != null)
      && (c.op.CreateTool? ==> c.op.tool !in tools && c.op.turn in turns)
      && (c.op.BeginTool? || c.op.EndTool? ==> c.op.tool in tools)
      && (c.op.Fork? ==> c.op.child !in tasks)
    }

    lemma AbsentIsNoSuchObject(c: CW.Call)
      requires Valid() && !Present(c)
      ensures CW.Next(World(), c.task, c.op) == CW.Step(World(), NoSuchObject)
    {
      KeysSeen();
      hide World, Valid;
      Absent(World(), c);
    }

    lemma KeysSeen()
      requires Valid()
      ensures var w := World();
              && w.tasks.Keys == tasks.Keys && w.runs.Keys == runs.Keys && w.turns.Keys == turns.Keys
              && w.tools.Keys == tools.Keys
              && (forall k :: k in w.states <==> k in turns && turns[k].state != null)
    {
    }

    // Everything a call may change belongs to the process.
    lemma RunsBelong()
      requires Valid()
      ensures this in Repr() && channel in Repr() && ids in Repr()
      ensures forall t :: t in tasks ==> tasks[t] in Repr()
      ensures forall r :: r in runs ==> runs[r] in Repr()
      ensures forall r :: r in runs && runs[r].latestTurn != null ==> runs[r].latestTurn in Repr()
    {
      forall r | r in runs && runs[r].latestTurn != null ensures runs[r].latestTurn in Repr() {
        assert RunOk(r);
      }
    }

    lemma TurnsBelong()
      requires Valid()
      ensures forall k :: k in turns ==> turns[k] in Repr() && turns[k].owner in Repr()
      ensures forall k :: k in turns && turns[k].state != null ==> turns[k].state in Repr()
    {
      forall k | k in turns ensures turns[k].owner in Repr() {
        assert TurnOk(k);
      }
    }

    lemma ToolsBelong()
      requires Valid()
      ensures forall l :: l in tools ==> tools[l] in Repr() && tools[l].turn.owner in Repr()
      ensures forall l :: l in tools ==> tools[l].turn.state != null && tools[l].turn.state in Repr()
    {
      TurnsBelong();
      forall l | l in tools
        ensures tools[l].turn.state != null && tools[l].turn.state in Repr() && tools[l].turn.owner in Repr()
      {
        assert ToolOk(l);
      }
    }

    method PerformOnRun(c: CW.Call) returns (result: Result)
      requires Valid() && Present(c) && (c.op.BeginRun? || c.op.EndRun?)
      modifies Repr()
      ensures Valid() && fresh(Repr() - old(Repr()))
      ensures CW.Step(World(), result) == CW.Next(old(World()), c.task, c.op)
    {
      assert c.task in tasks && c.op.run in runs;
      RunsBelong();
      hide *;
      match c.op
      case BeginRun(r, sink) => result := BeginRun(c.task, r, sink);
      case EndRun(r, error, sink) => result := EndRun(c.task, r, error, sink);
    }

    method PerformOnTurn(c: CW.Call) returns (result: Result)
      requires Valid() && Present(c) && (c.op.BeginTurn? || c.op.EndTurn?)
      modifies Repr()
      ensures Valid() && fresh(Repr() - old(Repr()))
      ensures CW.Step(World(), result) == CW.Next(old(World()), c.task, c.op)
    {
      assert c.task in tasks && c.op.turn in turns;
      RunsBelong();
      TurnsBelong();
      hide *;
      match c.op
      case BeginTurn(k, valid, sink) => result := BeginTurn(c.task, k, valid, sink);
      case EndTurn(k, error, sink) => result := EndTurn(c.task, k, error, sink);
    }

    method PerformOnTool(c: CW.Call) returns (result: Result)
      requires Valid() && Present(c) && (c.op.BeginTool? || c.op.EndTool?)
      modifies Repr()
      ensures Valid() && fresh(Repr() - old(Repr()))
      ensures CW.Step(World(), result) == CW.Next(old(World()), c.task, c.op)
    {
      assert c.task in tasks && c.op.tool in tools;
      RunsBelong();
      ToolsBelong();
      hide *;
      match c.op
      case BeginTool(l, valid, sink) => result := BeginTool(c.task, l, valid, sink);
      case EndTool(l, error, valid, sink) => result := EndTool(c.task, l, error, valid, sink);
    }

    method PerformRecord(c: CW.Call) returns (result: Result)
      requires Valid() && Present(c) && (c.op.RecordOnTurn? || c.op.RecordBusinessOutcome?)
      modifies Repr()
      ensures Valid() && fresh(Repr() - old(Repr()))
      ensures CW.Step(World(), result) == CW.Next(old(World()), c.task, c.op)
    {
      assert c.task in tasks
             && (c.op.RecordOnTurn? ==> c.op.turn in turns) && (c.op.RecordBusinessOutcome? ==> c.op.run in runs);
      RunsBelong();
      TurnsBelong();
      hide *;
      match c.op
      case RecordOnTurn(k, name, status, valid, sink) => result := RecordOnTurn(c.task, k, name, status, valid, sink);
      case RecordBusinessOutcome(r, refused, valid, sink) =>
        result := RecordBusinessOutcome(c.task, r, refused, valid, sink);
    }

    method PerformOther(c: CW.Call) returns (result: Result)
      requires Valid() && Present(c) && (c.op.SetTurnOutput? || c.op.CaptureTrace?)
      modifies Repr()
      ensures Valid() && fresh(Repr() - old(Repr()))
      ensures CW.Step(World(), result) == CW.Next(old(World()), c.task, c.op)
    {
      assert c.task in tasks && c.op.turn in turns && (c.op.CaptureTrace? ==> turns[c.op.turn].state != null);
      RunsBelong();
      TurnsBelong();
      hide *;
      match c.op
      case SetTurnOutput(k, output) => result := SetTurnOutput(c.task, k, output);
      case CaptureTrace(k, trace, failed, valid, sink) =>
        result := CaptureTrace(c.task, k, trace, failed, valid, sink);
    }

    method PerformMaking(c: CW.Call) returns (result: Result)
      requires Valid() && Present(c) && (c.op.CreateRun? || c.op.CreateTurn?)
      modifies Repr()
      ensures Valid() && fresh(Repr() - old(Repr()))
      ensures CW.Step(World(), result) == CW.Next(old(World()), c.task, c.op)
    {
      assert c.task in tasks
             && (c.op.CreateRun? ==> c.op.run !in runs)
             && (c.op.CreateTurn? ==> c.op.turn !in turns && c.op.run in runs);
      RunsBelong();
      hide *;
      match c.op
      case CreateRun(r, config) => result := CreateRun(c.task, r, config);
      case CreateTurn(k, r, request) => result := CreateTurn(c.task, k, r, request);
    }

    method PerformForking(c: CW.Call) returns (result: Result)
      requires Valid() && Present(c) && (c.op.CreateTool? || c.op.Fork?)
      modifies Repr()
      ensures Valid() && fresh(Repr() - old(Repr()))
      ensures CW.Step(World(), result) == CW.Next(old(World()), c.task, c.op)
    {
      assert c.task in tasks
             && (c.op.CreateTool? ==> c.op.tool !in tools && c.op.turn in turns)
             && (c.op.Fork? ==> c.op.child !in tasks);
      RunsBelong();
      hide *;
      match c.op
      case CreateTool(l, k, callId, valid) => result := CreateTool(c.task, l, k, callId, valid);
      case Fork(child) => result := Fork(c.task, child);
    }

    /** Whatever is called on the objects is the step of the world, and leads to objects of which the same
        can be said. */
    method Perform(c: CW.Call) returns (result: Result)
      requires Valid()
      modifies Repr()
      ensures Valid() && fresh(Repr() - old(Repr()))
      ensures CW.Step(World(), result) == CW.Next(old(World()), c.task, c.op)
    {
      if !Present(c) {
        AbsentIsNoSuchObject(c);
        return NoSuchObject;
      }
      hide CW.Next, World, Valid, Present;
      match c.op
      case BeginRun(_, _) => result := PerformOnRun(c);
      case EndRun(_, _, _) => result := PerformOnRun(c);
      case BeginTurn(_, _, _) => result := PerformOnTurn(c);
      case EndTurn(_, _, _) => result := PerformOnTurn(c);
      case BeginTool(_, _, _) => result := PerformOnTool(c);
      case EndTool(_, _, _, _) => result := PerformOnTool(c);
      case RecordOnTurn(_, _, _, _, _) => result := PerformRecord(c);
      case RecordBusinessOutcome(_, _, _, _) => result := PerformRecord(c);
      case SetTurnOutput(_, _) => result := PerformOther(c);
      case CaptureTrace(_, _, _, _, _) => result := PerformOther(c);
      case CreateTool(_, _, _, _) => result := PerformForking(c);
      case Fork(_) => result := PerformForking(c);
      case _ => result := PerformMaking(c);
    }
  }

  lemma NoCallsYet(w: CW.World, calls: seq<CW.Call>)
    ensures CW.RunAll(w, calls[..0]) == w && calls[..|calls|] == calls
  {
  }

  lemma CallMade(w: CW.World, calls: seq<CW.Call>, n: nat)
    requires n < |calls|
    ensures CW.RunAll(w, calls[..n + 1]) == CW.Next(CW.RunAll(w, calls[..n]), calls[n].task, calls[n].op).world
  {
    assert calls[..n + 1][..n] == calls[..n];
  }

  /** A process in which some calls have been made, in that order, stands for the world that they lead to,
      so what every reachable world satisfies holds of its objects. */
  method RunProcess(client: Client, task: TaskKey, calls: seq<CW.Call>) returns (p: Process)
    ensures p.Valid() && fresh(p.Repr())
    ensures p.World() == CW.RunAll(CW.Initial(client, task), calls) && CI.Inv(p.World())
  {
    hide *;
    NoCallsYet(CW.Initial(client, task), calls);
    p := new Process(client, task);
    for n := 0 to |calls|
      invariant p.Valid() && fresh(p.Repr())
      invariant p.World() == CW.RunAll(CW.Initial(client, task), calls[..n])
    {
      CallMade(CW.Initial(client, task), calls, n);
      var _ := p.Perform(calls[n]);
      assert forall o :: o in p.Repr() ==> !old(allocated(o));
    }
    CL.ReachableInv(client, task, calls);
  }

  // What a call comes to that is about objects that do not exist, or makes some that do.
  lemma Absent(w: CW.World, c: CW.Call)
    requires c.task in w.tasks ==>
               || (c.op.CreateRun? && c.op.run in w.runs)
               || ((c.op.BeginRun? || c.op.EndRun? || c.op.RecordBusinessOutcome?) && c.op.run !in w.runs)
               || (c.op.CreateTurn? && (c.op.turn in w.turns || c.op.run !in w.runs))
               || ((c.op.BeginTurn? || c.op.EndTurn? || c.op.SetTurnOutput? || c.op.RecordOnTurn?)
                    && c.op.turn !in w.turns)
               || (c.op.CaptureTrace? && c.op.turn !in w.states)
               || (c.op.CreateTool? && (c.op.tool in w.tools || c.op.turn !in w.turns))
               || ((c.op.BeginTool? || c.op.EndTool?) && c.op.tool !in w.tools)
               || (c.op.Fork? && c.op.child in w.tasks)
    ensures CW.Next(w, c.task, c.op) == CW.Step(w, NoSuchObject)
  {
  }

  datatype RunDone = RunDone(task: TaskKey, key: RunKey, s: RunStep)

  datatype TurnDone = TurnDone(task: TaskKey, k: TurnKey, s: TurnStep)

  datatype EventDone = EventDone(
    k: TurnKey, touched: set<ToolKey>, tools: map<ToolKey, Tool>, s: EventStep)

  // The maps agree at a key.
  ghost predicate SameAt<K, V(!new)>(before: map<K, V>, after: map<K, V>, key: K) {
    (key in before <==> key in after) && (key in before ==> after[key] == before[key])
  }

  // A world in which one turn, its owner, the variables of one task and the channel have changed.
  lemma TurnWorld(w: CW.World, w': CW.World, task: TaskKey, k: TurnKey, s: TurnStep)
    requires WorldSameBut(w, w', Touched({s.turn.owner}, {k}, {}, {task})) && w'.eventIds == w.eventIds
    requires k in w'.turns && w'.turns[k] == s.turn && task in w'.tasks && w'.tasks[task] == s.vars
    requires s.turn.owner in w'.runs && w'.runs[s.turn.owner] == s.run && w'.channel == s.channel
    requires if s.state.Some? then k in w'.states && w'.states[k] == s.state.value else SameAt(w.states, w'.states, k)
    ensures w' == CW.WithTurn(w, task, k, s).world
  {
    OneChanged(w.runs, w'.runs, s.turn.owner);
    OneChanged(w.turns, w'.turns, k);
    if s.state.Some? {
      OneChanged(w.states, w'.states, k);
    } else {
      assert w'.states == w.states;
    }
    NoneChanged(w.tools, w'.tools);
    OneChanged(w.tasks, w'.tasks, task);
  }

  // A world in which the state of one turn, its owner, some tools and the channel have changed.
  lemma EventWorld(w: CW.World, w': CW.World, d: EventDone)
    requires WorldSameBut(w, w', Touched({d.s.state.owner}, {d.k}, d.touched, {})) && SameAt(w.turns, w'.turns, d.k)
    requires d.k in w'.states && w'.states[d.k] == d.s.state
    requires d.s.state.owner in w'.runs && w'.runs[d.s.state.owner] == d.s.run && w'.channel == d.s.channel
    requires SameBut(w.tools, d.tools, d.touched)
    requires forall l :: l in d.touched ==> l in w'.tools && l in d.tools && w'.tools[l] == d.tools[l]
    requires w'.eventIds == w.eventIds + 1
    ensures w' == CW.WithEvent(w.(tools := d.tools), d.k, d.s).world
  {
    OneChanged(w.runs, w'.runs, d.s.state.owner);
    OneChanged(w.states, w'.states, d.k);
    assert w'.turns == w.turns;
    assert w'.tools == d.tools;
    NoneChanged(w.tasks, w'.tasks);
  }

  lemma ToolBegun(w: CW.World, task: TaskKey, op: CW.Op) returns (s: ToolStep)
    requires task in w.tasks && op.BeginTool? && op.tool in w.tools
    requires var k := w.tools[op.tool].turn; k in w.turns && CW.Entered(w, k)
    ensures var k := w.tools[op.tool].turn;
            && s == EnterTool(op.tool, w.tools[op.tool], w.turns[k], w.states[k], w.runs[w.states[k].owner], task,
                              w.tasks[task], w.channel, op.valid, w.eventIds, op.sink)
            && CW.Next(w, task, op) == CW.WithEvent(w.(tools := w.tools[op.tool := s.tool]), k, s.event)
  {
    hide EnterTool;
    var k := w.tools[op.tool].turn;
    s := EnterTool(op.tool, w.tools[op.tool], w.turns[k], w.states[k], w.runs[w.states[k].owner], task, w.tasks[task],
                   w.channel, op.valid, w.eventIds, op.sink);
    CS.EventNext(w, task, op);
  }

  lemma ToolEnded(w: CW.World, task: TaskKey, op: CW.Op) returns (s: ToolStep)
    requires task in w.tasks && op.EndTool? && op.tool in w.tools
    requires var k := w.tools[op.tool].turn; k in w.turns && CW.Entered(w, k)
    ensures var k := w.tools[op.tool].turn;
            && s == ExitTool(op.tool, w.tools[op.tool], w.turns[k], w.states[k], w.runs[w.states[k].owner],
                              w.tasks[task], w.channel, op.error, op.valid, w.eventIds, op.sink)
            && CW.Next(w, task, op) == CW.WithEvent(w.(tools := w.tools[op.tool := s.tool]), k, s.event)
  {
    hide ExitTool;
    var k := w.tools[op.tool].turn;
    s := ExitTool(op.tool, w.tools[op.tool], w.turns[k], w.states[k], w.runs[w.states[k].owner], w.tasks[task],
                   w.channel, op.error, op.valid, w.eventIds, op.sink);
    CS.EventNext(w, task, op);
  }

  lemma OutcomeNext(w: CW.World, vars: Vars, key: RunKey, refused: bool, valid: bool, sink: bool, task: TaskKey)
    requires key in w.runs && RunActive(key, w.runs[key], vars) && w.runs[key].latestTurn.Some?
    requires CW.Entered(w, w.runs[key].latestTurn.value)
    ensures var k := w.runs[key].latestTurn.value;
            var draft := Draft(Outcome, if refused then Failed else Completed, None, None, None);
            var s := CR.Record(w.states[k], w.runs[w.states[k].owner], w.channel, draft, valid, w.eventIds, sink);
            CW.Effected(w, CW.EventOf(w, task, vars, CW.RecordBusinessOutcome(key, refused, valid, sink)))
              == CW.WithEvent(w.(tools := w.tools), k, s)
  {
    hide CR.Record, CW.WithEvent;
  }

  lemma NoOutcomeNext(w: CW.World, vars: Vars, key: RunKey, refused: bool, valid: bool, sink: bool, task: TaskKey)
    requires key in w.runs && !(RunActive(key, w.runs[key], vars) && w.runs[key].latestTurn.Some?)
    ensures CW.Effected(w, CW.EventOf(w, task, vars, CW.RecordBusinessOutcome(key, refused, valid, sink)))
         == CW.Step(w, if RunActive(key, w.runs[key], vars) then NoTurnYet else Inactive)
  {
    hide CR.Record;
  }

  lemma NoTurnStep(w: CW.World, task: TaskKey, k: TurnKey, result: Result)
    requires task in w.tasks && k in w.turns && w.turns[k].owner in w.runs
    ensures CW.WithTurn(w, task, k,
              TurnStep(w.turns[k], None, w.runs[w.turns[k].owner], w.tasks[task], w.channel, result))
         == CW.Step(w, result)
  {
    var owner := w.turns[k].owner;
    assert w.turns[k := w.turns[k]] == w.turns && w.runs[owner := w.runs[owner]] == w.runs;
    assert w.tasks[task := w.tasks[task]] == w.tasks;
  }

  datatype Touched = Touched(runs: set<RunKey>, turns: set<TurnKey>, tools: set<ToolKey>, tasks: set<TaskKey>)

  // The same maps but at some keys.
  ghost predicate SameBut<K(!new), V(!new)>(before: map<K, V>, after: map<K, V>, touched: set<K>) {
    && (forall k :: k in before && k !in touched ==> k in after && after[k] == before[k])
    && (forall k :: k in after && k !in touched ==> k in before)
  }

  ghost predicate WorldSameBut(w: CW.World, w': CW.World, t: Touched) {
    && w'.client == w.client
    && SameBut(w.runs, w'.runs, t.runs) && SameBut(w.turns, w'.turns, t.turns) && SameBut(w.states, w'.states, t.turns)
    && SameBut(w.tools, w'.tools, t.tools) && SameBut(w.tasks, w'.tasks, t.tasks)
  }

  lemma RunMade(w: CW.World, w': CW.World, key: RunKey, config: RunConfig)
    requires WorldSameBut(w, w', Touched({key}, {}, {}, {})) && w'.channel == w.channel && w'.eventIds == w.eventIds
    requires key in w'.runs && w'.runs[key] == NewRun(key, config)
    ensures w' == w.(runs := w.runs[key := NewRun(key, config)])
  {
    OneChanged(w.runs, w'.runs, key);
    NoneChanged(w.turns, w'.turns);
    NoneChanged(w.states, w'.states);
    NoneChanged(w.tools, w'.tools);
    NoneChanged(w.tasks, w'.tasks);
  }

  lemma NothingMade(w: CW.World, w': CW.World)
    requires WorldSameBut(w, w', Touched({}, {}, {}, {})) && w'.channel == w.channel && w'.eventIds == w.eventIds
    ensures w' == w
  {
    NoneChanged(w.runs, w'.runs);
    NoneChanged(w.turns, w'.turns);
    NoneChanged(w.states, w'.states);
    NoneChanged(w.tools, w'.tools);
    NoneChanged(w.tasks, w'.tasks);
  }

  lemma TurnMade(w: CW.World, w': CW.World, key: TurnKey, run: RunKey, request: string)
    requires WorldSameBut(w, w', Touched({}, {key}, {}, {})) && w'.channel == w.channel && w'.eventIds == w.eventIds
    requires key in w'.turns && w'.turns[key] == NewTurn(run, request) && key !in w'.states && key !in w.states
    ensures w' == w.(turns := w.turns[key := NewTurn(run, request)])
  {
    NoneChanged(w.runs, w'.runs);
    OneChanged(w.turns, w'.turns, key);
    assert w'.states == w.states;
    NoneChanged(w.tools, w'.tools);
    NoneChanged(w.tasks, w'.tasks);
  }

  lemma ToolMade(w: CW.World, w': CW.World, key: ToolKey, k: TurnKey, callId: string)
    requires WorldSameBut(w, w', Touched({}, {}, {key}, {})) && w'.channel == w.channel && w'.eventIds == w.eventIds
    requires key in w'.tools && w'.tools[key] == NewTool(k, callId)
    ensures w' == w.(tools := w.tools[key := NewTool(k, callId)])
  {
    NoneChanged(w.runs, w'.runs);
    NoneChanged(w.turns, w'.turns);
    NoneChanged(w.states, w'.states);
    OneChanged(w.tools, w'.tools, key);
    NoneChanged(w.tasks, w'.tasks);
  }

  lemma OutputKept(w: CW.World, w': CW.World, k: TurnKey, turn: Turn)
    requires WorldSameBut(w, w', Touched({}, {k}, {}, {})) && w'.channel == w.channel && w'.eventIds == w.eventIds
    requires k in w.turns && k in w'.turns && w'.turns[k] == turn && SameAt(w.states, w'.states, k)
    ensures w' == w.(turns := w.turns[k := turn])
    ensures turn == w.turns[k] ==> w' == w
  {
    NoneChanged(w.runs, w'.runs);
    OneChanged(w.turns, w'.turns, k);
    assert w'.states == w.states;
    NoneChanged(w.tools, w'.tools);
    NoneChanged(w.tasks, w'.tasks);
  }

  lemma TaskMade(w: CW.World, w': CW.World, child: TaskKey, vars: Vars)
    requires WorldSameBut(w, w', Touched({}, {}, {}, {child})) && w'.channel == w.channel && w'.eventIds == w.eventIds
    requires child in w'.tasks && w'.tasks[child] == vars
    ensures w' == w.(tasks := w.tasks[child := vars])
  {
    NoneChanged(w.runs, w'.runs);
    NoneChanged(w.turns, w'.turns);
    NoneChanged(w.states, w'.states);
    NoneChanged(w.tools, w'.tools);
    OneChanged(w.tasks, w'.tasks, child);
  }

  lemma SameWorld(w: CW.World, w': CW.World, t: Touched)
    requires WorldSameBut(w, w', t) && t.tools == {} && t.tasks == {}
    requires forall r :: r in t.runs ==> SameAt(w.runs, w'.runs, r)
    requires forall k :: k in t.turns ==> SameAt(w.turns, w'.turns, k) && SameAt(w.states, w'.states, k)
    requires w'.channel == w.channel && w'.eventIds == w.eventIds
    ensures w' == w
  {
    assert w'.runs == w.runs;
    assert w'.turns == w.turns && w'.states == w.states;
    assert w'.tools == w.tools && w'.tasks == w.tasks;
  }

  lemma OneChanged<K(!new), V(!new)>(before: map<K, V>, after: map<K, V>, key: K)
    requires SameBut(before, after, {key}) && key in after
    ensures after == before[key := after[key]]
  {
  }

  lemma NoneChanged<K(!new), V(!new)>(before: map<K, V>, after: map<K, V>)
    requires SameBut(before, after, {})
    ensures after == before
  {
  }

  // A world in which one run, the variables of one task and the channel have changed.
  lemma RunWorld(w: CW.World, w': CW.World, task: TaskKey, key: RunKey, s: RunStep)
    requires WorldSameBut(w, w', Touched({key}, {}, {}, {task})) && w'.eventIds == w.eventIds
    requires key in w'.runs && w'.runs[key] == s.run && task in w'.tasks && w'.tasks[task] == s.vars
    requires w'.channel == s.channel
    ensures w' == CW.WithRun(w, task, key, s).world
  {
    OneChanged(w.runs, w'.runs, key);
    NoneChanged(w.turns, w'.turns);
    NoneChanged(w.states, w'.states);
    NoneChanged(w.tools, w'.tools);
    OneChanged(w.tasks, w'.tasks, task);
  }
}
