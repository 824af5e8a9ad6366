/**
 Plan validation against the task contract, and its simulation of which workspace files exist.
 The simulation walks the plan in list order, while execution runs in dependency waves; this
 module proves what the simulation still guarantees for the execution, and exactly when a read
 or modify step that passed the simulation meets a missing file.
 */
module PlanFiles {
  import opened Contracts
  import opened PlanGraph
  import opened WaveScheduler

  const READ := "read_workspace_file"
  const MODIFY := "modify_workspace_file"
  const CREATE := "create_workspace_file"

  datatype TaskContract = TaskContract(
    taskId: nat, allowedTools: set<string>, deniedTools: set<string>, maxExecutionSteps: nat)

  datatype PlanError =
    | TaskMismatch | TooManySteps | ToolNotAllowed | UnknownTool | InvalidArguments | RiskMismatch
    | NeedsVerification | FileNotAvailable | FileAlreadyExists

  predicate Creates(s: Step, path: string) {
    s.tool == CREATE && s.arguments.path == Some(path)
  }

  predicate Uses(s: Step, path: string) {
    (s.tool == READ || s.tool == MODIFY) && s.arguments.path == Some(path)
  }

  /** Paths created by some step of the list. */
  function CreatedBy(steps: seq<Step>): set<string> {
    set s | s in steps && s.tool == CREATE && s.arguments.path.Some? :: s.arguments.path.value
  }

  /** The checks of one step that look only at the contract and the tool registry. */
  predicate PolicyOk(s: Step, contract: TaskContract, registry: map<string, Risk>,
      accepts: (string, Arguments) -> bool) {
    && s.tool in contract.allowedTools && s.tool !in contract.deniedTools
    && s.tool in registry && accepts(s.tool, s.arguments) && s.risk == registry[s.tool]
    && (s.risk.High? ==> s.described)
  }

  /** The file a step needs is there, or the file it creates is not, given the available files. */
  predicate FileOk(s: Step, available: set<string>) {
    s.arguments.path.Some? ==>
      && (Uses(s, s.arguments.path.value) ==> s.arguments.path.value in available)
      && (Creates(s, s.arguments.path.value) ==> s.arguments.path.value !in available)
  }

  /** Every step passes in list order, the files being those of the workspace and of earlier creates. */
  ghost predicate FilesOk(steps: seq<Step>, files: set<string>) {
    forall i :: 0 <= i < |steps| ==> FileOk(steps[i], files + CreatedBy(steps[..i]))
  }

  /** The step passes the checks that come before this one and fails this one. */
  predicate FailsFirst(s: Step, contract: TaskContract, registry: map<string, Risk>,
      accepts: (string, Arguments) -> bool, error: PlanError) {
    var allowed := s.tool in contract.allowedTools - contract.deniedTools;
    var known := allowed && s.tool in registry;
    var valid := known && accepts(s.tool, s.arguments);
    match error
    case ToolNotAllowed => !allowed
    case UnknownTool => allowed && !known
    case InvalidArguments => known && !valid
    case RiskMismatch => valid && s.risk != registry[s.tool]
    case NeedsVerification => valid && s.risk == registry[s.tool] == High && !s.described
    case _ => valid && s.risk == registry[s.tool] && (s.risk == High ==> s.described)
  }

  method ValidatePlan(plan: Plan, contract: TaskContract, registry: map<string, Risk>,
                      accepts: (string, Arguments) -> bool, workspaceFiles: Option<set<string>>)
    returns (error: Option<PlanError>)
    ensures error.None? <==>
              && plan.taskId == contract.taskId && |plan.steps| <= contract.maxExecutionSteps
              && (forall s :: s in plan.steps ==> PolicyOk(s, contract, registry, accepts))
              && (workspaceFiles.Some? ==> FilesOk(plan.steps, workspaceFiles.value))
    ensures error == Some(TaskMismatch) <==> plan.taskId != contract.taskId
    ensures error == Some(TooManySteps) <==>
              plan.taskId == contract.taskId && |plan.steps| > contract.maxExecutionSteps
    ensures error.Some? && error.value != TaskMismatch && error.value != TooManySteps ==>
              exists i :: 0 <= i < |plan.steps| && FailsFirst(plan.steps[i], contract, registry, accepts, error.value)
                && forall k :: 0 <= k < i ==> PolicyOk(plan.steps[k], contract, registry, accepts)
    ensures error == Some(FileNotAvailable) ==> workspaceFiles.Some? && exists i, path ::
              && 0 <= i < |plan.steps| && Uses(plan.steps[i], path)
              && path !in workspaceFiles.value + CreatedBy(plan.steps[..i])
    ensures error == Some(FileAlreadyExists) ==> workspaceFiles.Some? && exists i, path ::
              && 0 <= i < |plan.steps| && Creates(plan.steps[i], path)
              && path in workspaceFiles.value + CreatedBy(plan.steps[..i])
  {
    hide CreatedBy, PolicyOk, FileOk, FailsFirst;
    if plan.taskId != contract.taskId { return Some(TaskMismatch); }
    if |plan.steps| > contract.maxExecutionSteps { return Some(TooManySteps); }
    var available := if workspaceFiles.Some? then workspaceFiles.value else {};
    NothingCreated(plan.steps);
    for i := 0 to |plan.steps|
      invariant forall k :: 0 <= k < i ==> PolicyOk(plan.steps[k], contract, registry, accepts)
      invariant workspaceFiles.Some? ==> available == workspaceFiles.value + CreatedBy(plan.steps[..i])
      invariant workspaceFiles.Some? ==> forall k :: 0 <= k < i ==>
                  FileOk(plan.steps[k], workspaceFiles.value + CreatedBy(plan.steps[..k]))
    {
      var step := plan.steps[i];
      assert step in plan.steps;
      PolicyOfStep(step, contract, registry, accepts);
      FailureOfStep(step, contract, registry, accepts);
      FileOfStep(step, available);
      if step.tool !in contract.allowedTools || step.tool in contract.deniedTools { return Some(ToolNotAllowed); }
      if step.tool !in registry { return Some(UnknownTool); }
      if !accepts(step.tool, step.arguments) { return Some(InvalidArguments); }
      if step.risk != registry[step.tool] { return Some(RiskMismatch); }
      if step.risk.High? && !step.described { return Some(NeedsVerification); }
      CreatedBySnoc(plan.steps, i);
      if workspaceFiles.None? || step.arguments.path.None? { continue; }
      var path := step.arguments.path.value;
      if step.tool == "read_workspace_file" || step.tool == "modify_workspace_file" {
        if path !in available {
          assert Uses(plan.steps[i], path);
          return Some(FileNotAvailable);
        }
      } else if step.tool == "create_workspace_file" {
        if path in available {
          assert Creates(plan.steps[i], path);
          return Some(FileAlreadyExists);
        }
        available := available + {path};
      }
    }
    return None;
  }

  lemma NothingCreated(steps: seq<Step>)
    ensures CreatedBy(steps[..0]) == {}
  {
  }

  lemma PolicyOfStep(s: Step, contract: TaskContract, registry: map<string, Risk>, accepts: (string, Arguments) -> bool)
    ensures PolicyOk(s, contract, registry, accepts) <==>
              && s.tool in contract.allowedTools && s.tool !in contract.deniedTools
              && s.tool in registry && accepts(s.tool, s.arguments) && s.risk == registry[s.tool]
              && (s.risk.High? ==> s.described)
  {
  }

  lemma FailureOfStep(s: Step, contract: TaskContract, registry: map<string, Risk>,
      accepts: (string, Arguments) -> bool)
    ensures s.tool !in contract.allowedTools || s.tool in contract.deniedTools ==>
              FailsFirst(s, contract, registry, accepts, ToolNotAllowed)
    ensures s.tool in contract.allowedTools && s.tool !in contract.deniedTools ==>
              && (s.tool !in registry ==> FailsFirst(s, contract, registry, accepts, UnknownTool))
              && (s.tool in registry && !accepts(s.tool, s.arguments) ==>
                    FailsFirst(s, contract, registry, accepts, InvalidArguments))
              && (s.tool in registry && accepts(s.tool, s.arguments) && s.risk != registry[s.tool] ==>
                    FailsFirst(s, contract, registry, accepts, RiskMismatch))
              && (s.tool in registry && accepts(s.tool, s.arguments) && s.risk == registry[s.tool] ==>
                    if s.risk.High? && !s.described then FailsFirst(s, contract, registry, accepts, NeedsVerification)
                    else FailsFirst(s, contract, registry, accepts, FileNotAvailable)
                         && FailsFirst(s, contract, registry, accepts, FileAlreadyExists))
  {
  }

  lemma FileOfStep(s: Step, available: set<string>)
    ensures s.arguments.path.None? ==> FileOk(s, available)
    ensures s.arguments.path.Some? && s.tool in {READ, MODIFY} ==>
              (FileOk(s, available) <==> s.arguments.path.value in available)
    ensures s.arguments.path.Some? && s.tool == CREATE ==>
              (FileOk(s, available) <==> s.arguments.path.value !in available)
    ensures s.tool !in {READ, MODIFY, CREATE} ==> FileOk(s, available)
  {
  }

  lemma CreatedBySnoc(steps: seq<Step>, i: nat)
    requires i < |steps|
    ensures CreatedBy(steps[..i + 1]) == CreatedBy(steps[..i])
              + if steps[i].tool == CREATE && steps[i].arguments.path.Some? then {steps[i].arguments.path.value} else {}
  {
    assert steps[..i + 1] == steps[..i] + [steps[i]];
  }

  // ----- What the simulation means for an execution -----

  /** In an accepted plan at most one step creates a path, and none creates an initial file. */
  lemma SingleCreator(steps: seq<Step>, files: set<string>, s: Step, t: Step, path: string)
    requires UniqueIds(steps) && FilesOk(steps, files)
    requires s in steps && t in steps && Creates(s, path) && Creates(t, path)
    ensures s == t && path !in files
  {
    var i :| 0 <= i < |steps| && steps[i] == s;
    var j :| 0 <= j < |steps| && steps[j] == t;
    assert FileOk(steps[i], files + CreatedBy(steps[..i]));
    assert FileOk(steps[j], files + CreatedBy(steps[..j]));
    EarlierInPrefix(steps, i, j);
    EarlierInPrefix(steps, j, i);
  }

  lemma EarlierInPrefix(steps: seq<Step>, i: nat, j: nat)
    requires i < |steps| && j < |steps|
    ensures i < j ==> steps[i] in steps[..j]
  {
    if i < j {
      assert steps[..j][i] == steps[i];
    }
  }

  /** In any order at all, with any part of the plan already done, no create step meets an existing file. */
  lemma CreateNeverMeetsFile(steps: seq<Step>, files: set<string>, order: seq<Step>, k: nat)
    requires UniqueIds(steps) && FilesOk(steps, files)
    requires UniqueIds(order) && k < |order| && forall s :: s in order ==> s in steps
    requires order[k].tool == CREATE
    ensures FileOk(order[k], files + CreatedBy(order[..k]))
  {
    if order[k].arguments.path.Some? {
      var path := order[k].arguments.path.value;
      assert order[k] in order && order[k] in steps && Creates(order[k], path);
      SingleCreator(steps, files, order[k], order[k], path);
      if path in CreatedBy(order[..k]) {
        var i :| 0 <= i < k && order[..k][i].tool == CREATE && order[..k][i].arguments.path == Some(path);
        assert order[i] in order && Creates(order[i], path);
        SingleCreator(steps, files, order[i], order[k], path);
        assert false;
      }
    }
  }

  /** In an accepted plan a used file is an initial one or the product of an earlier step of the list. */
  lemma CreatorIsEarlier(steps: seq<Step>, files: set<string>, i: nat, path: string) returns (j: nat)
    requires FilesOk(steps, files) && i < |steps| && Uses(steps[i], path) && path !in files
    ensures j < i && Creates(steps[j], path)
  {
    assert FileOk(steps[i], files + CreatedBy(steps[..i]));
    var c :| c in steps[..i] && Creates(c, path);
    j :| 0 <= j < i && steps[..i][j] == c;
  }

  /** A read or modify whose creator is a transitive dependency always finds its file, also after a resume. */
  lemma DependentFindsFile(steps: seq<Step>, files: set<string>, before: seq<Step>, order: seq<Step>, k: nat,
                           creator: Step, path: string, chain: seq<string>)
    requires Accepted(steps) && FilesOk(steps, files)
    requires DownClosed(steps, Ids(before)) && (forall s :: s in before ==> s in steps)
    requires Ordered(steps, Ids(before), order) && k < |order| && Uses(order[k], path)
    requires creator in steps && Creates(creator, path)
    requires IsPath(GraphOf(steps), chain) && 2 <= |chain|
    requires chain[0] == order[k].id && chain[|chain| - 1] == creator.id
    ensures FileOk(order[k], files + CreatedBy(before) + CreatedBy(order[..k]))
  {
    TransitivelyDone(steps, Ids(before), order, k, chain);
    OrderedMembers(steps, Ids(before), order, k);
    hide Acyclic, IsPath, GraphOf, DownClosed, FilesOk, CreatedBy, Ids, Ordered, UniqueIds, KnownDependencies;
    if creator.id in Ids(before) {
      CreatorAmong(steps, before, creator, path);
    } else {
      CreatorAmong(steps, order[..k], creator, path);
    }
  }

  lemma OrderedMembers(steps: seq<Step>, before: set<string>, order: seq<Step>, k: nat)
    requires Ordered(steps, before, order) && k <= |order|
    ensures forall s :: s in order[..k] ==> s in steps
  {
  }

  lemma CreatorAmong(steps: seq<Step>, list: seq<Step>, creator: Step, path: string)
    requires UniqueIds(steps) && creator in steps && Creates(creator, path)
    requires creator.id in Ids(list) && forall s :: s in list ==> s in steps
    ensures path in CreatedBy(list)
  {
    var c :| c in list && c.id == creator.id;
    SameIdSameStep(steps, c, creator);
  }

  // ----- The exact condition in depth order -----

  lemma {:induction false} PickSplit(a: seq<Step>, b: seq<Step>, ids: set<string>)
    ensures Pick(a + b, ids) == Pick(a, ids) + Pick(b, ids)
  {
    if a == [] {
      assert a + b == b;
    } else {
      assert (a + b)[1..] == a[1..] + b;
      PickSplit(a[1..], b, ids);
    }
  }

  lemma {:induction false} FlattenMembers(waves: seq<seq<Step>>, s: Step)
    ensures s in Flatten(waves) <==> exists w :: 0 <= w < |waves| && s in waves[w]
  {
    if waves != [] {
      var init := waves[..|waves| - 1];
      FlattenMembers(init, s);
      assert forall w :: 0 <= w < |init| ==> init[w] == waves[w];
    }
  }

  lemma {:induction false} FlattenSplit(waves: seq<seq<Step>>, w: nat) returns (rest: seq<Step>)
    requires w < |waves|
    ensures Flatten(waves) == Flatten(waves[..w]) + waves[w] + rest
  {
    var last := |waves| - 1;
    if w == last {
      rest := [];
    } else {
      var r := FlattenSplit(waves[..last], w);
      assert waves[..last][..w] == waves[..w];
      rest := r + waves[last];
    }
  }

  lemma DepthUnique(g: Graph, n: string, a: nat, b: nat)
    requires HasDepth(g, n, a) && HasDepth(g, n, b)
    ensures a == b
  {
    var p :| IsPath(g, p) && p[0] == n && |p| == a;
    var q :| IsPath(g, q) && q[0] == n && |q| == b;
  }

  /** s sits in wave w exactly when w is its depth, counted from one. */
  lemma InWave(steps: seq<Step>, s: Step, d: nat, w: nat)
    requires UniqueIds(steps) && s in steps && HasDepth(GraphOf(steps), s.id, d)
    ensures s in Pick(steps, IdsOfDepth(steps, w + 1)) <==> w + 1 == d
  {
    hide HasDepth;
    if s.id in IdsOfDepth(steps, w + 1) {
      var t :| t in steps && HasDepth(GraphOf(steps), t.id, w + 1) && t.id == s.id;
      DepthUnique(GraphOf(steps), s.id, w + 1, d);
    }
  }

  lemma WaveIs(steps: seq<Step>, waves: seq<seq<Step>>, w: nat)
    requires WavesByDepth(steps, waves) && w < |waves|
    ensures waves[w] == Pick(steps, IdsOfDepth(steps, w + 1)) && waves[w] != []
  {
  }

  lemma InSomeWave(steps: seq<Step>, waves: seq<seq<Step>>, s: Step, d: nat)
    requires UniqueIds(steps) && WavesByDepth(steps, waves) && s in steps && HasDepth(GraphOf(steps), s.id, d)
    ensures 1 <= d <= |waves| && s in waves[d - 1]
  {
    hide HasDepth;
    var w :| 0 <= w < |waves| && s in waves[w];
    assert waves[w] == Pick(steps, IdsOfDepth(steps, w + 1));
    InWave(steps, s, d, w);
  }

  /** The waves before w hold exactly the steps of smaller depth. */
  lemma InEarlierWaves(steps: seq<Step>, waves: seq<seq<Step>>, s: Step, d: nat, w: nat)
    requires UniqueIds(steps) && WavesByDepth(steps, waves) && s in steps && HasDepth(GraphOf(steps), s.id, d)
    requires w <= |waves|
    ensures s in Flatten(waves[..w]) <==> d <= w
  {
    hide HasDepth, WavesByDepth, UniqueIds, IdsOfDepth;
    FlattenMembers(waves[..w], s);
    InSomeWave(steps, waves, s, d);
    if d <= w {
      assert waves[..w][d - 1] == waves[d - 1];
    }
    if s in Flatten(waves[..w]) {
      var v :| 0 <= v < w && s in waves[..w][v];
      WaveIs(steps, waves, v);
      InWave(steps, s, d, v);
    }
  }

  /** Everything that runs before step i: the earlier waves, and the steps of its wave listed before it. */
  ghost function Lead(steps: seq<Step>, waves: seq<seq<Step>>, i: nat, d: nat): seq<Step>
    requires i < |steps| && 1 <= d <= |waves|
  {
    Flatten(waves[..d - 1]) + Pick(steps[..i], IdsOfDepth(steps, d))
  }

  lemma PickFirst(s: Step, rest: seq<Step>, ids: set<string>)
    ensures Pick([s] + rest, ids) == (if s.id in ids then [s] else []) + Pick(rest, ids)
  {
    assert ([s] + rest)[1..] == rest;
  }

  lemma LeadPrefix(steps: seq<Step>, waves: seq<seq<Step>>, i: nat, d: nat) returns (tail: seq<Step>)
    requires i < |steps| && 1 <= d <= |waves| && steps[i].id in IdsOfDepth(steps, d)
    requires waves[d - 1] == Pick(steps, IdsOfDepth(steps, d))
    ensures Flatten(waves) == Lead(steps, waves, i, d) + [steps[i]] + tail
  {
    hide IdsOfDepth, Pick, Flatten;
    var rest := FlattenSplit(waves, d - 1);
    var ids := IdsOfDepth(steps, d);
    assert steps == steps[..i] + ([steps[i]] + steps[i + 1..]);
    PickSplit(steps[..i], [steps[i]] + steps[i + 1..], ids);
    PickFirst(steps[i], steps[i + 1..], ids);
    tail := Pick(steps[i + 1..], ids) + rest;
  }

  /** Step i starts at the position right after its lead. */
  lemma LeadIsPast(steps: seq<Step>, waves: seq<seq<Step>>, i: nat, d: nat, k: nat)
    requires UniqueIds(steps) && WavesByDepth(steps, waves) && i < |steps| && HasDepth(GraphOf(steps), steps[i].id, d)
    requires UniqueIds(Flatten(waves)) && k < |Flatten(waves)| && Flatten(waves)[k] == steps[i]
    ensures 1 <= d <= |waves| && Flatten(waves)[..k] == Lead(steps, waves, i, d)
  {
    assert steps[i] in steps;
    IdOfDepth(steps, steps[i], d);
    hide HasDepth, WavesByDepth, UniqueIds, IdsOfDepth, Pick, Flatten, Lead;
    InSomeWave(steps, waves, steps[i], d);
    WaveIs(steps, waves, d - 1);
    var tail := LeadPrefix(steps, waves, i, d);
    OnlyPosition(Flatten(waves), Lead(steps, waves, i, d), steps[i], tail, k);
  }

  lemma IdOfDepth(steps: seq<Step>, s: Step, d: nat)
    requires s in steps && HasDepth(GraphOf(steps), s.id, d)
    ensures s.id in IdsOfDepth(steps, d)
  {
    hide HasDepth;
  }

  lemma OnlyPosition(all: seq<Step>, lead: seq<Step>, s: Step, tail: seq<Step>, k: nat)
    requires UniqueIds(all) && all == lead + [s] + tail && k < |all| && all[k] == s
    ensures all[..k] == lead
  {
    assert all[|lead|] == s;
  }

  /** Step j has run when the later listed step i starts exactly when j is not in a later wave. */
  lemma RunsBefore(steps: seq<Step>, waves: seq<seq<Step>>, i: nat, j: nat, di: nat, dj: nat, k: nat)
    requires UniqueIds(steps) && WavesByDepth(steps, waves) && j < i < |steps|
    requires HasDepth(GraphOf(steps), steps[i].id, di) && HasDepth(GraphOf(steps), steps[j].id, dj)
    requires UniqueIds(Flatten(waves)) && k < |Flatten(waves)| && Flatten(waves)[k] == steps[i]
    ensures steps[j] in Flatten(waves)[..k] <==> dj <= di
  {
    LeadIsPast(steps, waves, i, di, k);
    hide HasDepth, WavesByDepth, UniqueIds;
    InEarlierWaves(steps, waves, steps[j], dj, di - 1);
    InWave(steps, steps[j], dj, di - 1);
    assert steps[..i][j] == steps[j];
  }

  /**
   In the depth order of a plan, a read or modify of a file that the plan itself creates finds the
   file exactly when its creator does not sit in a later wave.
   */
  lemma FindsFileIff(steps: seq<Step>, files: set<string>, waves: seq<seq<Step>>,
                     i: nat, j: nat, di: nat, dj: nat, k: nat, path: string)
    requires Accepted(steps) && FilesOk(steps, files) && WavesByDepth(steps, waves)
    requires i < |steps| && Uses(steps[i], path) && path !in files
    requires j < |steps| && Creates(steps[j], path)
    requires HasDepth(GraphOf(steps), steps[i].id, di) && HasDepth(GraphOf(steps), steps[j].id, dj)
    requires k < |Flatten(waves)| && Flatten(waves)[k] == steps[i]
    ensures FileOk(steps[i], files + CreatedBy(Flatten(waves)[..k])) <==> dj <= di
  {
    OrderUnique(steps, waves);
    var past := Flatten(waves)[..k];
    var c := CreatorIsEarlier(steps, files, i, path);
    SingleCreator(steps, files, steps[j], steps[c], path);
    assert j == c;
    RunsBefore(steps, waves, i, j, di, dj, k);
    if path in CreatedBy(past) {
      FlattenInPlan(steps, waves);
      hide Accepted, WavesByDepth, HasDepth;
      var t :| t in past && Creates(t, path);
      assert t in Flatten(waves);
      SingleCreator(steps, files, steps[j], t, path);
    }
  }

  lemma OrderUnique(steps: seq<Step>, waves: seq<seq<Step>>)
    requires UniqueIds(steps) && KnownDependencies(steps) && WavesByDepth(steps, waves)
    ensures UniqueIds(Flatten(waves))
  {
    FlattenShallow(steps, waves);
  }

  lemma FlattenInPlan(steps: seq<Step>, waves: seq<seq<Step>>)
    requires WavesByDepth(steps, waves)
    ensures forall t :: t in Flatten(waves) ==> t in steps
  {
    hide WavesByDepth, IdsOfDepth;
    forall t | t in Flatten(waves) ensures t in steps {
      FlattenMembers(waves, t);
      var w :| 0 <= w < |waves| && t in waves[w];
      WaveIs(steps, waves, w);
    }
  }

  /** Without dependencies every longest chain is the step alone. */
  lemma FlatDepths(steps: seq<Step>, s: Step)
    requires UniqueIds(steps) && KnownDependencies(steps) && s in steps && s.dependsOn == {}
    ensures HasDepth(GraphOf(steps), s.id, 1)
  {
    var g := GraphOf(steps);
    GraphOfEdges(steps, s);
    GraphOfClosed(steps);
    ShallowStep(g, s.id, 0);
    assert IsPath(g, [s.id]);
  }

  lemma NoMembers(steps: seq<Step>)
    ensures (forall s :: s !in steps) ==> steps == []
  {
    if steps != [] {
      assert steps[0] in steps;
    }
  }

  /** Without dependencies the depth order is the list order. */
  lemma FlatOrder(steps: seq<Step>, waves: seq<seq<Step>>)
    requires Accepted(steps) && WavesByDepth(steps, waves) && forall s :: s in steps ==> s.dependsOn == {}
    ensures Flatten(waves) == steps
  {
    AcceptedParts(steps);
    hide Acyclic, WavesByDepth, HasDepth;
    if steps == [] {
      FlattenInPlan(steps, waves);
      NoMembers(Flatten(waves));
    } else {
      forall s | s in steps ensures s.id in IdsOfDepth(steps, 1) {
        FlatDepths(steps, s);
      }
      PickAll(steps, IdsOfDepth(steps, 1));
      OneWave(steps, waves);
      hide *;
      FlattenSingle(steps);
    }
  }

  /** Without dependencies the whole plan is one wave in list order, so every step finds its file. */
  lemma FlatPlanFindsFiles(steps: seq<Step>, files: set<string>, waves: seq<seq<Step>>, k: nat)
    requires Accepted(steps) && FilesOk(steps, files) && WavesByDepth(steps, waves)
    requires forall s :: s in steps ==> s.dependsOn == {}
    requires k < |steps|
    ensures Flatten(waves) == steps && FileOk(steps[k], files + CreatedBy(Flatten(waves)[..k]))
  {
    assert FileOk(steps[k], files + CreatedBy(steps[..k]));
    FlatOrder(steps, waves);
  }

  lemma FlattenSingle(steps: seq<Step>)
    ensures Flatten([steps]) == steps
  {
    assert [steps][..0] == [];
  }

  lemma OneWave(steps: seq<Step>, waves: seq<seq<Step>>)
    requires UniqueIds(steps) && KnownDependencies(steps) && WavesByDepth(steps, waves) && steps != []
    requires forall s :: s in steps ==> s.dependsOn == {}
    requires Pick(steps, IdsOfDepth(steps, 1)) == steps
    ensures waves == [steps]
  {
    hide HasDepth, WavesByDepth, UniqueIds, IdsOfDepth, KnownDependencies, Pick;
    assert steps[0] in steps;
    FlatDepths(steps, steps[0]);
    InSomeWave(steps, waves, steps[0], 1);
    WaveIs(steps, waves, 0);
    if 2 <= |waves| {
      WaveIs(steps, waves, 1);
      var s := waves[1][0];
      assert s in waves[1];
      FlatDepths(steps, s);
      InWave(steps, s, 1, 1);
    }
  }

  // ----- The exact condition after a resume -----

  /** The files that are there when an execution resumes with before done. */
  function FilesThen(steps: seq<Step>, files: set<string>, before: set<string>): set<string> {
    files + CreatedBy(Pick(steps, before))
  }

  lemma StripUses(s: Step, before: set<string>, available: set<string>)
    ensures FileOk(Strip(s, before), available) <==> FileOk(s, available)
  {
  }

  lemma StripCreates(steps: seq<Step>, before: set<string>)
    ensures CreatedBy(StripAll(steps, before)) == CreatedBy(steps)
  {
    StripMembers(steps, before);
    hide StripAll;
    forall s | s in steps && s.tool == CREATE && s.arguments.path.Some?
      ensures s.arguments.path.value in CreatedBy(StripAll(steps, before))
    {
      assert Strip(s, before) in StripAll(steps, before);
    }
  }

  /** Where a step of what is left stands in the plan. */
  lemma {:induction false} PickPosition(steps: seq<Step>, ids: set<string>, i: nat) returns (m: nat)
    requires i < |Pick(steps, ids)|
    ensures m < |steps| && steps[m] == Pick(steps, ids)[i] && Pick(steps, ids)[..i] == Pick(steps[..m], ids)
  {
    PickHead(steps, ids);
    hide Pick;
    var rest := steps[1..];
    var skipped := if steps[0].id in ids then 1 else 0;
    if i < skipped {
      m := 0;
      PickHead(steps[..0], ids);
    } else {
      var n := PickPosition(rest, ids, i - skipped);
      m := n + 1;
      PickHead(steps[..m], ids);
      assert steps[..m][1..] == rest[..n];
    }
  }

  lemma PickHead(steps: seq<Step>, ids: set<string>)
    ensures steps == [] ==> Pick(steps, ids) == []
    ensures steps != [] ==> Pick(steps, ids) == (if steps[0].id in ids then [steps[0]] else []) + Pick(steps[1..], ids)
  {
  }

  lemma CreatedParts(steps: seq<Step>, before: set<string>, m: nat)
    requires m < |steps|
    ensures CreatedBy(steps[..m]) <= CreatedBy(Pick(steps, before)) + CreatedBy(Pick(steps[..m], Ids(steps) - before))
    ensures CreatedBy(Pick(steps[..m], Ids(steps) - before)) <= CreatedBy(steps[..m])
  {
    forall s | s in steps[..m] && s.tool == CREATE && s.arguments.path.Some?
      ensures s.arguments.path.value in CreatedBy(Pick(steps, before))
                + CreatedBy(Pick(steps[..m], Ids(steps) - before))
    {
      assert s in steps && s.id in Ids(steps);
      if s.id in before {
        assert s in Pick(steps, before);
      } else {
        assert s in Pick(steps[..m], Ids(steps) - before);
      }
    }
  }

  /** A step that is still to run creates nothing that has been created before. */
  lemma NotCreatedBefore(steps: seq<Step>, files: set<string>, before: set<string>, m: nat)
    requires UniqueIds(steps) && FilesOk(steps, files) && m < |steps| && steps[m].id !in before
    requires steps[m].tool == CREATE && steps[m].arguments.path.Some?
    ensures steps[m].arguments.path.value !in FilesThen(steps, files, before)
  {
    var path := steps[m].arguments.path.value;
    SingleCreator(steps, files, steps[m], steps[m], path);
    if path in CreatedBy(Pick(steps, before)) {
      var t :| t in Pick(steps, before) && Creates(t, path);
      SingleCreator(steps, files, steps[m], t, path);
    }
  }

  /** What is left of a plan that passed the simulation passes it with the files that are there by then. */
  lemma ResidualFilesOk(steps: seq<Step>, files: set<string>, before: set<string>)
    requires UniqueIds(steps) && FilesOk(steps, files)
    ensures FilesOk(Residual(steps, before), FilesThen(steps, files, before))
  {
    var rest, left := Residual(steps, before), Ids(steps) - before;
    forall i | 0 <= i < |rest|
      ensures FileOk(rest[i], FilesThen(steps, files, before) + CreatedBy(rest[..i]))
    {
      var m := PickPosition(steps, left, i);
      assert rest[..i] == StripAll(Pick(steps, left)[..i], before);
      StripCreates(Pick(steps[..m], left), before);
      CreatedParts(steps, before, m);
      assert Pick(steps, left)[i] in Pick(steps, left);
      LaterFileOk(steps, files, before, m);
      StripUses(steps[m], before, FilesThen(steps, files, before) + CreatedBy(rest[..i]));
    }
  }

  lemma LaterFileOk(steps: seq<Step>, files: set<string>, before: set<string>, m: nat)
    requires UniqueIds(steps) && FilesOk(steps, files) && m < |steps| && steps[m].id !in before
    ensures FileOk(steps[m], FilesThen(steps, files, before) + CreatedBy(Pick(steps[..m], Ids(steps) - before)))
  {
    CreatedParts(steps, before, m);
    assert FileOk(steps[m], files + CreatedBy(steps[..m]));
    if steps[m].tool == CREATE && steps[m].arguments.path.Some? {
      NotCreatedBefore(steps, files, before, m);
    }
  }

  /**
   The exact condition in every execution, fresh, resumed or failed: a read or modify of a file that
   is not there yet finds it if and only if its creator is not deeper than it is in what was left of
   the plan when the execution started.
   */
  lemma ResumedFindsFileIff(steps: seq<Step>, files: set<string>, before: set<string>, order: seq<Step>,
                            waves: seq<seq<Step>>, k: nat, creator: Step, di: nat, dj: nat, path: string)
    requires Accepted(steps) && FilesOk(steps, files) && before <= Ids(steps)
    requires FollowsDepth(steps, before, order, waves)
    requires k < |order| && order[k] in steps && Uses(order[k], path) && path !in FilesThen(steps, files, before)
    requires creator in steps && Creates(creator, path)
    requires HasDepth(GraphOf(Residual(steps, before)), order[k].id, di)
    requires HasDepth(GraphOf(Residual(steps, before)), creator.id, dj)
    ensures FileOk(order[k], FilesThen(steps, files, before) + CreatedBy(order[..k])) <==> dj <= di
  {
    hide HasDepth, Acyclic, GraphOf, WavesByDepth, FilesOk, FilesThen, Uses, Creates, StripAll, CreatedBy, FileOk;
    hide Residual, Flatten, UniqueIds, KnownDependencies;
    AcceptedParts(steps);
    var rest, there := Residual(steps, before), FilesThen(steps, files, before);
    ResidualAccepted(steps, before);
    ResidualFilesOk(steps, files, before);
    ReaderAndCreator(steps, files, before, order, waves, k, creator, path);
    var i :| 0 <= i < |rest| && rest[i] == Strip(order[k], before);
    var j :| 0 <= j < |rest| && rest[j] == Strip(creator, before);
    StripKeepsTool(order[k], creator, before, path);
    FindsFileIff(rest, there, waves, i, j, di, dj, k, path);
    StrippedPrefix(order, before, Flatten(waves), k);
    StripCreates(order[..k], before);
    StripUses(order[k], before, there + CreatedBy(order[..k]));
  }

  lemma StrippedPrefix(order: seq<Step>, before: set<string>, all: seq<Step>, k: nat)
    requires StripAll(order, before) <= all && k <= |order|
    ensures all[..k] == StripAll(order[..k], before)
  {
  }

  lemma StripKeepsTool(s: Step, t: Step, before: set<string>, path: string)
    ensures Uses(Strip(s, before), path) <==> Uses(s, path)
    ensures Creates(Strip(t, before), path) <==> Creates(t, path)
  {
  }

  /** Both the reader and the creator of a file that is not there yet are among what was left. */
  lemma ReaderAndCreator(steps: seq<Step>, files: set<string>, before: set<string>, order: seq<Step>,
                         waves: seq<seq<Step>>, k: nat, creator: Step, path: string)
    requires UniqueIds(steps) && FollowsDepth(steps, before, order, waves) && k < |order|
    requires creator in steps && Creates(creator, path) && path !in FilesThen(steps, files, before)
    ensures Strip(order[k], before) in Residual(steps, before) && Strip(creator, before) in Residual(steps, before)
    ensures k < |Flatten(waves)| && Flatten(waves)[k] == Strip(order[k], before)
  {
    hide WavesByDepth, Flatten, UniqueIds;
    var rest := Residual(steps, before);
    FlattenInPlan(rest, waves);
    assert Flatten(waves)[k] == StripAll(order, before)[k];
    assert Flatten(waves)[k] in Flatten(waves);
    CreatedThen(steps, files, before, creator, path);
    assert creator.id in Ids(steps) && creator in Pick(steps, Ids(steps) - before);
    StripMembers(Pick(steps, Ids(steps) - before), before);
  }

  lemma CreatedThen(steps: seq<Step>, files: set<string>, before: set<string>, creator: Step, path: string)
    requires creator in steps && Creates(creator, path)
    ensures creator.id in before ==> path in FilesThen(steps, files, before)
  {
    if creator.id in before {
      assert creator in Pick(steps, before);
    }
  }

  lemma StripFlat(steps: seq<Step>, before: set<string>)
    requires forall s :: s in steps ==> s.dependsOn == {}
    ensures StripAll(steps, before) == steps
  {
    forall i | 0 <= i < |steps| ensures Strip(steps[i], before) == steps[i] {
      assert steps[i] in steps && steps[i].dependsOn - before == {};
    }
  }

  /** Without dependencies a resumed execution runs what is left in list order, and every step finds its file. */
  lemma ResumedFlatPlan(steps: seq<Step>, files: set<string>, before: set<string>, order: seq<Step>,
                        waves: seq<seq<Step>>, k: nat)
    requires Accepted(steps) && FilesOk(steps, files) && FollowsDepth(steps, before, order, waves)
    requires forall s :: s in steps ==> s.dependsOn == {}
    requires (forall s :: s in order ==> s in steps) && k < |order|
    ensures order <= Pick(steps, Ids(steps) - before)
    ensures FileOk(order[k], FilesThen(steps, files, before) + CreatedBy(order[..k]))
  {
    hide Acyclic, GraphOf, WavesByDepth, FilesOk, FilesThen, FileOk, UniqueIds, KnownDependencies;
    var rest := Residual(steps, before);
    StripFlat(Pick(steps, Ids(steps) - before), before);
    StripFlat(order, before);
    ResidualAccepted(steps, before);
    AcceptedParts(steps);
    ResidualFilesOk(steps, files, before);
    FlatOrder(rest, waves);
    FlatPlanFindsFiles(rest, FilesThen(steps, files, before), waves, k);
    assert order[..k] == rest[..k];
  }

  const SETUP := Step("setup", {}, "run_check", Arguments(None, ""), Low, true)
  const MAKE := Step("make", {"setup"}, CREATE, Arguments(Some("out"), ""), Low, true)
  const USE := Step("use", {}, READ, Arguments(Some("out"), ""), Low, true)

  /**
   The simulation is not enough on its own: this accepted plan reads its own product in the first
   wave, one wave before the file is created.
   */
  lemma SimulationCanMiss(files: set<string>)
    requires "out" !in files
    ensures var steps := [SETUP, MAKE, USE];
            && Accepted(steps) && FilesOk(steps, files)
            && Ready(steps, {}) == [SETUP, USE]
            && !FileOk(USE, files + CreatedBy([SETUP]))
  {
    var steps := [SETUP, MAKE, USE];
    MissAccepted();
    assert steps[1..] == [MAKE, USE] && [MAKE, USE][1..] == [USE] && [USE][1..] == [];
    assert Ready([USE], {}) == [USE] && Ready([MAKE, USE], {}) == [USE];
    hide Accepted, Ready;
    assert steps[..2] == [SETUP, MAKE] && steps[..1] == [SETUP] && MAKE in [SETUP, MAKE];
  }

  lemma MissAccepted()
    ensures Accepted([SETUP, MAKE, USE])
  {
    var steps := [SETUP, MAKE, USE];
    assert SETUP in steps && MAKE in steps && USE in steps;
    GraphOfEdges(steps, SETUP);
    GraphOfEdges(steps, MAKE);
    GraphOfEdges(steps, USE);
    GraphOfKeys(steps);
    hide GraphOf;
    RankedIsAcyclic(GraphOf(steps), map["setup" := 0, "make" := 1, "use" := 0]);
  }

  const FIRST := Step("a", {}, "run_check", Arguments(None, ""), Low, true)
  const SECOND := Step("b", {}, "run_check", Arguments(None, ""), Low, true)
  const LATE_MAKE := Step("j", {"b"}, CREATE, Arguments(Some("out"), ""), Low, true)
  const EARLY_USE := Step("i", {"a"}, READ, Arguments(Some("out"), ""), Low, true)

  /**
   Equal depths are not enough after a resume: with only its dependency done before the interruption,
   this reader moves ahead of the creator, which it would have followed in a fresh execution.
   */
  lemma ResumeCanMiss(files: set<string>)
    requires "out" !in files
    ensures var steps := [FIRST, SECOND, LATE_MAKE, EARLY_USE];
            && Accepted(steps) && FilesOk(steps, files)
            && Ready(steps, {}) == [FIRST, SECOND]
            && Ready([LATE_MAKE, EARLY_USE], {"a", "b"}) == [LATE_MAKE, EARLY_USE]
            && Ready(Pick(steps, Ids(steps) - {"a"}), {"a"}) == [SECOND, EARLY_USE]
            && !FileOk(EARLY_USE, files + CreatedBy([FIRST]) + CreatedBy([SECOND]))
  {
    var steps := [FIRST, SECOND, LATE_MAKE, EARLY_USE];
    ResumeAccepted();
    ResumeLists();
    hide Accepted, Ready, Pick;
    assert steps[..3] == [FIRST, SECOND, LATE_MAKE] && steps[..2] == [FIRST, SECOND] && steps[..1] == [FIRST];
    assert LATE_MAKE in [FIRST, SECOND, LATE_MAKE];
  }

  lemma ResumeLists()
    ensures var steps := [FIRST, SECOND, LATE_MAKE, EARLY_USE];
            && Ready(steps, {}) == [FIRST, SECOND]
            && Ready([LATE_MAKE, EARLY_USE], {"a", "b"}) == [LATE_MAKE, EARLY_USE]
            && Ready(Pick(steps, Ids(steps) - {"a"}), {"a"}) == [SECOND, EARLY_USE]
  {
    LeftAfterFirst();
    hide Ready, Pick;
    ReadyOfFour(FIRST, SECOND, LATE_MAKE, EARLY_USE, "a", "b");
  }

  function IfReady(s: Step, completed: set<string>): seq<Step> {
    if s.dependsOn <= completed then [s] else []
  }

  lemma ReadyOfTwo(u: Step, v: Step, completed: set<string>)
    ensures Ready([u, v], completed) == IfReady(u, completed) + IfReady(v, completed)
  {
    assert [u, v][1..] == [v];
    ReadyHead([u, v], completed);
    ReadyHead([v], completed);
    ReadyNone();
    hide Ready;
    assert IfReady(v, completed) + [] == IfReady(v, completed);
  }

  lemma ReadyOfThree(t: Step, u: Step, v: Step, completed: set<string>)
    ensures Ready([t, u, v], completed) == IfReady(t, completed) + (IfReady(u, completed) + IfReady(v, completed))
  {
    assert [t, u, v][1..] == [u, v];
    ReadyHead([t, u, v], completed);
    hide Ready;
    ReadyOfTwo(u, v, completed);
  }

  /** Two free steps, and two that need one of them each. */
  lemma ReadyOfFour(s: Step, t: Step, u: Step, v: Step, a: string, b: string)
    requires s.dependsOn == t.dependsOn == {} && u.dependsOn == {b} && v.dependsOn == {a} && a != b
    ensures Ready([s, t, u, v], {}) == [s, t] && Ready([u, v], {a, b}) == [u, v] && Ready([t, u, v], {a}) == [t, v]
  {
    hide Ready;
    assert [s, t, u, v][1..] == [t, u, v];
    ReadyHead([s, t, u, v], {});
    ReadyOfThree(t, u, v, {});
    ReadyOfThree(t, u, v, {a});
    ReadyOfTwo(u, v, {a, b});
    assert b !in {a};
  }

  lemma ReadyHead(steps: seq<Step>, completed: set<string>)
    requires steps != []
    ensures Ready(steps, completed)
         == (if steps[0].dependsOn <= completed then [steps[0]] else []) + Ready(steps[1..], completed)
  {
  }

  lemma ReadyNone()
    ensures forall completed :: Ready([], completed) == []
  {
  }

  lemma LeftAfterFirst()
    ensures var steps := [FIRST, SECOND, LATE_MAKE, EARLY_USE];
            Pick(steps, Ids(steps) - {"a"}) == [SECOND, LATE_MAKE, EARLY_USE]
  {
    var steps, rest := [FIRST, SECOND, LATE_MAKE, EARLY_USE], [SECOND, LATE_MAKE, EARLY_USE];
    var left := Ids(steps) - {"a"};
    assert SECOND in steps && LATE_MAKE in steps && EARLY_USE in steps;
    assert "b" in left && "j" in left && "i" in left && "a" !in left;
    PickHead(steps, left);
    assert steps[1..] == rest;
    PickAll(rest, left) by { RestIds(rest); }
  }

  lemma RestIds(rest: seq<Step>)
    requires rest == [SECOND, LATE_MAKE, EARLY_USE]
    ensures Ids(rest) == {"b", "j", "i"}
  {
    assert rest[0] == SECOND && rest[1] == LATE_MAKE && rest[2] == EARLY_USE;
    assert SECOND in rest && LATE_MAKE in rest && EARLY_USE in rest;
  }

  lemma ResumeAccepted()
    ensures Accepted([FIRST, SECOND, LATE_MAKE, EARLY_USE])
  {
    var steps := [FIRST, SECOND, LATE_MAKE, EARLY_USE];
    assert FIRST in steps && SECOND in steps && LATE_MAKE in steps && EARLY_USE in steps;
    GraphOfEdges(steps, FIRST);
    GraphOfEdges(steps, SECOND);
    GraphOfEdges(steps, LATE_MAKE);
    GraphOfEdges(steps, EARLY_USE);
    GraphOfKeys(steps);
    hide GraphOf;
    RankedIsAcyclic(GraphOf(steps), map["a" := 0, "b" := 0, "j" := 1, "i" := 1]);
  }
}
