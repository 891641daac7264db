/**
 * What a run of `main` guarantees: the order of its steps, which step runs after
 * which failure, how the process ends, and when the handle is destroyed.
 */
module ClientProperties {
  import opened Wrappers
  import opened Failures
  import opened Promises
  import opened Stream
  import opened Listing
  import opened Client

  /** The calls on jsftp and on the filesystem, without the logging. */
  datatype Step = Connect | List | Retrieve(name: string) | Save(name: string) | Disconnect

  function StepOf(e: Effect): seq<Step> {
    match e
    case Init(_) => [Connect]
    case Ls => [List]
    case Get(name) => [Retrieve(name)]
    case WriteFile(name, _) => [Save(name)]
    case Destroy => [Disconnect]
    case _ => []
  }

  function Steps(effects: seq<Effect>): seq<Step> {
    if effects == [] then [] else StepOf(effects[0]) + Steps(effects[1..])
  }

  /** Every step of a run that gets to the end, in the order `main` takes them. */
  const PIPELINE: seq<Step> :=
    [Connect, List, Retrieve(TARGET_FILE), Retrieve(TARGET_FILE), Save(TARGET_FILE), Disconnect]

  lemma {:induction false} StepsAppend(a: seq<Effect>, b: seq<Effect>)
    ensures Steps(a + b) == Steps(a) + Steps(b)
    decreases |a|
  {
    if a == [] {
      assert a + b == b;
    } else {
      assert (a + b)[1..] == a[1..] + b;
      StepsAppend(a[1..], b);
    }
  }

  lemma StepsOfOne(x: Effect)
    ensures Steps([x]) == StepOf(x)
  {
    assert [x][1..] == [];
  }

  lemma StepsOfPair(x: Effect, y: Effect)
    ensures Steps([x, y]) == StepOf(x) + StepOf(y)
  {
    assert [x, y][1..] == [y];
    StepsOfOne(y);
  }

  /** Cutting the pipeline at `j` and joining the two parts gives it back. */
  lemma PipelineSplit(i: nat, j: nat, k: nat)
    requires i <= j <= k <= |PIPELINE|
    ensures PIPELINE[i..j] + PIPELINE[j..k] == PIPELINE[i..k]
  {
  }

  /** Whether the listing held the target, given how its promise settled. */
  predicate TargetListed(a: Settled) {
    a.listed.Fulfilled? && Listed(a.listed.value, TARGET_FILE)
  }

  /** How many steps of the pipeline the `try` block takes once the handle is set. */
  function Reach(a: Settled): nat {
    if !TargetListed(a) then 2
    else if !a.fetched.Fulfilled? then 3
    else if !a.refetched.Fulfilled? then 4
    else 5
  }

  lemma SaveStageSteps(a: Settled)
    requires TargetListed(a) && a.fetched.Fulfilled?
    ensures Steps(SaveStage(a).effects) == PIPELINE[3..Reach(a)]
  {
    if a.refetched.Fulfilled? {
      StepsOfPair(Get(TARGET_FILE), WriteFile(TARGET_FILE, a.refetched.value));
    } else {
      StepsOfOne(Get(TARGET_FILE));
    }
  }

  lemma FetchStageSteps(a: Settled)
    requires TargetListed(a)
    ensures Steps(FetchStage(a).effects) == PIPELINE[2..Reach(a)]
  {
    StepsOfOne(Get(TARGET_FILE));
    if a.fetched.Fulfilled? {
      var head := [Get(TARGET_FILE), Log(FetchOk), Log(Version(a.fetched.value))];
      assert head == [Get(TARGET_FILE)] + [Log(FetchOk), Log(Version(a.fetched.value))];
      StepsAppend([Get(TARGET_FILE)], [Log(FetchOk), Log(Version(a.fetched.value))]);
      StepsOfPair(Log(FetchOk), Log(Version(a.fetched.value)));
      StepsAppend(head, SaveStage(a).effects);
      SaveStageSteps(a);
      PipelineSplit(2, 3, Reach(a));
    }
  }

  lemma CheckStageSteps(a: Settled)
    requires a.listed.Fulfilled?
    ensures Steps(CheckStage(a.listed.value, a).effects) == PIPELINE[2..Reach(a)]
  {
    if TargetListed(a) {
      StepsAppend([Log(CheckOk)], FetchStage(a).effects);
      StepsOfOne(Log(CheckOk));
      FetchStageSteps(a);
    }
  }

  lemma ListStageSteps(a: Settled)
    ensures Steps(ListStage(a).effects) == PIPELINE[1..Reach(a)]
  {
    StepsOfOne(Ls);
    if a.listed.Fulfilled? {
      StepsOfPair(Ls, Log(ListOk));
      StepsAppend([Ls, Log(ListOk)], CheckStage(a.listed.value, a).effects);
      CheckStageSteps(a);
      PipelineSplit(1, 2, Reach(a));
    }
  }

  /** The `try` block completes exactly when every step of the pipeline before the close succeeded. */
  lemma ListStageResult(a: Settled)
    ensures ListStage(a).result.Normal? <==> Reach(a) == 5 && a.write.Done?
  {
    if TargetListed(a) {
      assert ListStage(a).result == FetchStage(a).result;
    }
  }

  /** The steps of the `try` block, in terms of how far it got. */
  lemma TryBlockSteps(config: Config, remote: Remote)
    ensures var a := Answers(Some(Session(config)), remote);
            && Steps(TryBlock(config, remote).effects) ==
                 PIPELINE[..if remote.init.Failed? then 1 else Reach(a)]
            && (TryBlock(config, remote).result.Normal? <==>
                  remote.init.Done? && Reach(a) == 5 && remote.write.Done?)
  {
    StepsOfOne(Init(config));
    if remote.init.Done? {
      var a := Answers(Some(Session(config)), remote);
      StepsOfPair(Init(config), Log(InitOk));
      StepsAppend([Init(config), Log(InitOk)], ListStage(a).effects);
      ListStageSteps(a);
      ListStageResult(a);
      PipelineSplit(0, 1, Reach(a));
    }
  }

  /** The steps of a whole run: those of the `try` block, and the close after a completed one. */
  lemma RunSteps(config: Config, remote: Remote)
    ensures var a := Answers(Some(Session(config)), remote);
            var run := Orchestrate(config, remote);
            var m := if remote.init.Failed? then 1 else Reach(a);
            && (run.result.Completed? <==> remote.init.Done? && Reach(a) == 5 && remote.write.Done?)
            && Steps(run.effects) == PIPELINE[..if run.result.Completed? then 6 else m]
  {
    var body := TryBlock(config, remote);
    TryBlockSteps(config, remote);
    match body.result {
      case Suspended =>
      case Threw(ex) =>
        StepsAppend(body.effects, [ErrorLog(ex), Exit(0)]);
        StepsOfPair(ErrorLog(ex), Exit(0));
      case Normal =>
        StepsAppend(body.effects, [Destroy]);
        StepsOfOne(Destroy);
        PipelineSplit(0, 5, 6);
    }
  }

  /** How far the `try` block gets, in terms of the replies of the server and the filesystem. */
  lemma ReachMeans(handle: Session, remote: Remote)
    ensures var a := Answers(Some(handle), remote);
            && (Reach(a) >= 3 <==> remote.listing.err.None? && Listed(remote.listing.res, TARGET_FILE))
            && (Reach(a) >= 4 <==> Reach(a) >= 3 && FetchOutcome(Some(handle), remote.fetch).Fulfilled?)
            && (Reach(a) >= 5 <==> Reach(a) >= 4 && FetchOutcome(Some(handle), remote.refetch).Fulfilled?)
  {
  }

  /**
   * The steps of a run are always the pipeline cut short, and a step is taken
   * exactly when every step before it succeeded: connecting, listing, finding the
   * target, the first retrieve, the second retrieve; the handle is closed exactly
   * when the write succeeded as well.
   */
  lemma StepsRunInOrder(config: Config, remote: Remote)
    ensures var run := Orchestrate(config, remote);
            var n := |Steps(run.effects)|;
            var handle := Some(Session(config));
            && 1 <= n <= |PIPELINE|
            && Steps(run.effects) == PIPELINE[..n]
            && (n >= 2 <==> remote.init.Done?)
            && (n >= 3 <==> remote.init.Done? && remote.listing.err.None?
                             && Listed(remote.listing.res, TARGET_FILE))
            && (n >= 4 <==> n >= 3 && FetchOutcome(handle, remote.fetch).Fulfilled?)
            && (n >= 5 <==> n >= 4 && FetchOutcome(handle, remote.refetch).Fulfilled?)
            && (n == 6 <==> n >= 5 && remote.write.Done?)
            && (n == 6 <==> run.result.Completed?)
  {
    RunSteps(config, remote);
    ReachMeans(Session(config), remote);
  }

  /**
   * Any failure in the `try` block ends the process through the `catch` block:
   * the error is logged, the process exits with status 0, and nothing follows;
   * in particular the handle is not destroyed.
   */
  lemma FailureExitsAtOnce(config: Config, remote: Remote)
    ensures var run := Orchestrate(config, remote);
            && (run.result.Exited? <==> TryBlock(config, remote).result.Threw?)
            && (run.result.Exited? ==>
                  && run.result == Exited(0)
                  && run.effects[|run.effects| - 2] == ErrorLog(TryBlock(config, remote).result.ex)
                  && run.effects[|run.effects| - 1] == Exit(0)
                  && Destroy !in run.effects)
  {
    TryBlockKeepsHandle(config, remote);
  }

  /** An effect list whose steps do not include `Disconnect` does not destroy the handle. */
  lemma {:induction false} NoCloseNoDestroy(effects: seq<Effect>)
    ensures Destroy in effects ==> Disconnect in Steps(effects)
    decreases |effects|
  {
    if effects != [] && effects[0] != Destroy {
      NoCloseNoDestroy(effects[1..]);
    }
  }

  /** The `try` block never destroys the handle. */
  lemma TryBlockKeepsHandle(config: Config, remote: Remote)
    ensures Destroy !in TryBlock(config, remote).effects
  {
    var body := TryBlock(config, remote);
    TryBlockSteps(config, remote);
    assert Disconnect !in PIPELINE[..5];
    NoCloseNoDestroy(body.effects);
  }

  /** Everything a completed run does, in order. */
  lemma CompletedRun(config: Config, remote: Remote)
    requires Orchestrate(config, remote).result.Completed?
    ensures var handle := Some(Session(config));
            var fetched := FetchOutcome(handle, remote.fetch);
            var refetched := FetchOutcome(handle, remote.refetch);
            && remote.init.Done? && remote.listing.err.None?
            && Listed(remote.listing.res, TARGET_FILE)
            && fetched.Fulfilled? && refetched.Fulfilled? && remote.write.Done?
            && Orchestrate(config, remote).effects ==
                 [Init(config), Log(InitOk), Ls, Log(ListOk), Log(CheckOk),
                  Get(TARGET_FILE), Log(FetchOk), Log(Version(fetched.value)),
                  Get(TARGET_FILE), WriteFile(TARGET_FILE, refetched.value),
                  Destroy]
  {
  }

  /**
   * The handle is destroyed once, as the last thing `main` does, when the `try`
   * block completes, and never otherwise.
   */
  lemma DestroyOnlyOnCompletion(config: Config, remote: Remote)
    ensures var run := Orchestrate(config, remote);
            && (run.result.Completed? ==>
                  && run.effects[|run.effects| - 1] == Destroy
                  && Destroy !in run.effects[..|run.effects| - 1])
            && (!run.result.Completed? ==> Destroy !in run.effects)
  {
    TryBlockKeepsHandle(config, remote);
    var body := TryBlock(config, remote);
    if body.result.Normal? {
      assert Orchestrate(config, remote).effects[..|body.effects|] == body.effects;
    }
  }

  /**
   * When the listing succeeds but has no entry named exactly `version.txt`,
   * `main` throws "version.txt does not exist" and exits before any retrieve or
   * write.
   */
  lemma MissingTargetStopsBeforeFetch(config: Config, remote: Remote)
    requires remote.init.Done? && remote.listing.err.None?
    requires !Listed(remote.listing.res, TARGET_FILE)
    ensures Orchestrate(config, remote) ==
              Run([Init(config), Log(InitOk), Ls, Log(ListOk),
                   ErrorLog(ErrorObject("version.txt does not exist")), Exit(0)],
                  Exited(0))
  {
    assert NOT_FOUND_MESSAGE == "version.txt does not exist";
    var a := Answers(Some(Session(config)), remote);
    assert ListStage(a) == Then([Ls, Log(ListOk)], CheckStage(remote.listing.res, a));
  }
}
