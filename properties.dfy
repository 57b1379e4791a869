/**
 * What one `createApplication` run does to the progress steps, to the
 * external calls it issues and to its result, for every combination of
 * external outcomes; and that, from the initial steps, no step ever moves
 * backwards.
 */
module Properties {
  import opened Wrappers
  import opened Progress
  import opened Workflow

  /** Both pins of the publish `try` that are attempted succeed. */
  predicate PublishSucceeds(data: NewApplication, env: Env) {
    && (Includes(data.base64Image, ImageMarker) ==> env.imagePin.Pinned?)
    && env.metadataPin.Pinned?
  }

  /**
   * The registration `try` gets as far as reading `recipientId`: the send,
   * the receipt wait and every log decode succeed, and there is a first log.
   */
  predicate Registered(env: Env) {
    && env.send.Sent?
    && env.receipt.Receipt?
    && |env.receipt.logs| > 0
    && forall k :: 0 <= k < |env.receipt.logs| ==> env.receipt.logs[k].Decodes?
  }

  /** The registration `try` runs to its end: it gets that far and the chain has a block explorer. */
  predicate RegistrationSucceeds(chain: ChainInfo, env: Env) {
    Registered(env) && chain.explorerUrl.Some?
  }

  /** The steps after one run that starts from the initial steps. */
  function FinalSteps(data: NewApplication, chainId: int, poolId: int, chain: ChainInfo, env: Env): (r: seq<Step>) {
    Replay(InitialSteps(), Run(data, chainId, poolId, chain, env).updates)
  }

  /**
   * The publish stage: on success it links step 0 to the pinned metadata,
   * marks step 0 done and starts step 1; on either pin failing its only
   * update is step 0's status, to IS_ERROR.
   */
  lemma {:induction false} PublishStageOutcome(metadata: Metadata, env: Env)
    ensures var pub := PublishStage(metadata, env);
      && (pub.pointer.Some? <==>
           (Includes(metadata.base64Image, ImageMarker) ==> env.imagePin.Pinned?) && env.metadataPin.Pinned?)
      && (pub.pointer.Some? ==>
           && pub.pointer.value == env.metadataPin.ipfsHash
           && pub.updates == [SetHref(0, IpfsGateway + env.metadataPin.ipfsHash), SetStatus(0, IsSuccess), SetStatus(1, InProgress)])
      && (pub.pointer.None? ==> pub.updates == [SetStatus(0, IsError)])
  {
  }

  /**
   * The registration stage has three outcomes. When it runs to its end it
   * names the chain and transaction on step 2, links step 2 to the explorer,
   * marks step 1 done, starts step 2 and reads `recipientId` from the first
   * log. When the chain has no block explorer it has already read
   * `recipientId` and named the transaction on step 2, and then marks step 1
   * IS_ERROR. On any earlier failure its only update marks step 1 IS_ERROR
   * and `recipientId` stays undefined.
   */
  lemma {:induction false} RegisterStageOutcome(data: NewApplication, chainId: int, poolId: int, chain: ChainInfo, pointer: string, env: Env)
    ensures var reg := RegisterStage(data, chainId, poolId, chain, pointer, env);
      && (RegistrationSucceeds(chain, env) ==>
           && reg.updates == [ SetTarget(2, chain.name + " at " + env.send.hash),
                               SetHref(2, chain.explorerUrl.value + "/tx/" + env.send.hash),
                               SetStatus(1, IsSuccess),
                               SetStatus(2, InProgress) ]
           && reg.recipientId == RecipientIdOf(env.receipt.logs[0].args))
      && (Registered(env) && chain.explorerUrl.None? ==>
           && reg.updates == [SetTarget(2, chain.name + " at " + env.send.hash), SetStatus(1, IsError)]
           && reg.recipientId == RecipientIdOf(env.receipt.logs[0].args))
      && (!Registered(env) ==> reg.updates == [SetStatus(1, IsError)] && reg.recipientId == None)
  {
  }

  /**
   * The steps `s` after the registration stage: step 0 untouched; step 1
   * IS_SUCCESS only when the stage runs to its end, IS_ERROR otherwise; step
   * 2 named after the transaction whenever `recipientId` was read, linked
   * and started only when the stage runs to its end.
   */
  lemma {:induction false} RegisterSteps(s: seq<Step>, data: NewApplication, chainId: int, poolId: int, chain: ChainInfo, pointer: string, env: Env)
    requires |s| == 3
    ensures var reg := RegisterStage(data, chainId, poolId, chain, pointer, env);
      && InBounds(reg.updates, 3)
      && var r := Replay(s, reg.updates);
      && r[0] == s[0]
      && (RegistrationSucceeds(chain, env) ==>
           && r[1] == s[1].(status := IsSuccess)
           && r[2] == s[2].(target := chain.name + " at " + env.send.hash,
                            href := chain.explorerUrl.value + "/tx/" + env.send.hash,
                            status := InProgress))
      && (Registered(env) && chain.explorerUrl.None? ==>
           && r[1] == s[1].(status := IsError)
           && r[2] == s[2].(target := chain.name + " at " + env.send.hash))
      && (!Registered(env) ==> r[1] == s[1].(status := IsError) && r[2] == s[2])
  {
    var us := RegisterStage(data, chainId, poolId, chain, pointer, env).updates;
    RegisterStageOutcome(data, chainId, poolId, chain, pointer, env);
    if RegistrationSucceeds(chain, env) {
      ReplayFour(s, us[0], us[1], us[2], us[3]);
    } else if Registered(env) {
      ReplayTwo(s, us[0], us[1]);
    } else {
      ReplayOne(s, us[0]);
    }
  }

  /** The run's updates, stage by stage, replayed on the steps `s`. */
  lemma {:induction false} RunReplay(s: seq<Step>, data: NewApplication, chainId: int, poolId: int, chain: ChainInfo, env: Env)
    requires |s| == 3
    ensures var run := Run(data, chainId, poolId, chain, env);
      var first := [SetTarget(2, chain.name)];
      var pub := PublishStage(MetadataOf(data), env);
      && InBounds(first, 3) && InBounds(pub.updates, 3)
      && (pub.pointer.None? ==> Replay(s, run.updates) == Replay(Replay(s, first), pub.updates))
      && (pub.pointer.Some? ==>
           var reg := RegisterStage(data, chainId, poolId, chain, pub.pointer.value, env);
           var poll := [SetStatus(2, PollStatus(env))];
           && InBounds(reg.updates, 3) && InBounds(poll, 3)
           && Replay(s, run.updates) == Replay(Replay(Replay(Replay(s, first), pub.updates), reg.updates), poll))
  {
    var first := [SetTarget(2, chain.name)];
    var pub := PublishStage(MetadataOf(data), env);
    PublishStageOutcome(MetadataOf(data), env);
    var run := Run(data, chainId, poolId, chain, env);
    ReplayAppend(s, first, pub.updates);
    if pub.pointer.Some? {
      var reg := RegisterStage(data, chainId, poolId, chain, pub.pointer.value, env);
      var poll := [SetStatus(2, PollStatus(env))];
      assert run.updates == first + pub.updates + reg.updates + poll;
      RegisterStageOutcome(data, chainId, poolId, chain, pub.pointer.value, env);
      ReplayAppend(s, first + pub.updates, reg.updates);
      ReplayAppend(s, first + pub.updates + reg.updates, poll);
    } else {
      assert run.updates == first + pub.updates;
    }
  }

  /**
   * The initial steps: step 0 IN_PROGRESS with target IPFS, step 1
   * NOT_STARTED with target POOL, step 2 NOT_STARTED with no target.
   */
  lemma {:induction false} InitialStepStatuses()
    ensures |InitialSteps()| == 3
    ensures forall k :: 0 <= k < 3 ==> InitialSteps()[k].id == k
    ensures InitialSteps()[0].status == InProgress && InitialSteps()[0].target == IpfsTarget
    ensures InitialSteps()[1].status == NotStarted && InitialSteps()[1].target == PoolTarget
    ensures InitialSteps()[2].status == NotStarted && InitialSteps()[2].target == ""
  {
  }

  /** The first thing a run does is set step 2's target to the chain name. */
  lemma {:induction false} RunStartsWithChainName(data: NewApplication, chainId: int, poolId: int, chain: ChainInfo, env: Env)
    ensures var us := Run(data, chainId, poolId, chain, env).updates;
      |us| > 0 && us[0] == SetTarget(2, chain.name)
  {
  }

  /**
   * With a "base64" image, the image is pinned first and the metadata pinned
   * next, carrying the image's hash in place of the image; no other pin follows.
   */
  lemma {:induction false} ImagePinnedBeforeMetadata(data: NewApplication, chainId: int, poolId: int, chain: ChainInfo, env: Env)
    requires Includes(data.base64Image, ImageMarker) && env.imagePin.Pinned?
    ensures var calls := Run(data, chainId, poolId, chain, env).calls;
      && |calls| >= 2
      && calls[0] == PinJson(ImageData(data.base64Image))
      && calls[1] == PinJson(MetadataRecord(MetadataOf(data).(base64Image := env.imagePin.ipfsHash)))
      && forall k :: 2 <= k < |calls| ==> !calls[k].PinJson?
  {
  }

  /** Without a "base64" image there is exactly one pin, of the metadata as given. */
  lemma {:induction false} SinglePinWithoutImage(data: NewApplication, chainId: int, poolId: int, chain: ChainInfo, env: Env)
    requires !Includes(data.base64Image, ImageMarker)
    ensures var calls := Run(data, chainId, poolId, chain, env).calls;
      && |calls| >= 1
      && calls[0] == PinJson(MetadataRecord(MetadataOf(data)))
      && forall k :: 1 <= k < |calls| ==> !calls[k].PinJson?
  {
  }

  /**
   * A successful publish leaves step 0 IS_SUCCESS and linked to the IPFS
   * gateway, and step 1 IN_PROGRESS, before registration starts.
   */
  lemma {:induction false} PublishSuccessSteps(data: NewApplication, chainId: int, poolId: int, chain: ChainInfo, env: Env)
    requires PublishSucceeds(data, env)
    ensures var us := Run(data, chainId, poolId, chain, env).updates;
      var i := InitialSteps();
      && |us| >= 4
      && Replay(i, us[..4]) ==
           [ i[0].(href := IpfsGateway + env.metadataPin.ipfsHash, status := IsSuccess),
             i[1].(status := InProgress),
             i[2].(target := chain.name) ]
      && FinalSteps(data, chainId, poolId, chain, env)[0] == Replay(i, us[..4])[0]
  {
    var us := Run(data, chainId, poolId, chain, env).updates;
    var i := InitialSteps();
    var hash := env.metadataPin.ipfsHash;
    PublishPrefix(data, chainId, poolId, chain, env);
    ReplayFour(i, SetTarget(2, chain.name), SetHref(0, IpfsGateway + hash), SetStatus(0, IsSuccess), SetStatus(1, InProgress));
    PublishedSteps(chain.name, hash);
    assert us == us[..4] + us[4..];
    ReplayAppend(i, us[..4], us[4..]);
    ReplayLeavesOthers(Replay(i, us[..4]), us[4..], 0);
  }

  /** After a successful publish, the run's first four updates are the chain name and the publish updates; none after them touches step 0. */
  lemma {:induction false} PublishPrefix(data: NewApplication, chainId: int, poolId: int, chain: ChainInfo, env: Env)
    requires PublishSucceeds(data, env)
    ensures var us := Run(data, chainId, poolId, chain, env).updates;
      && |us| >= 4
      && us[..4] == [ SetTarget(2, chain.name), SetHref(0, IpfsGateway + env.metadataPin.ipfsHash),
                      SetStatus(0, IsSuccess), SetStatus(1, InProgress) ]
      && forall k :: 4 <= k < |us| ==> us[k].index != 0
  {
  }

  /** The initial steps after the chain name and a successful publish. */
  lemma {:induction false} PublishedSteps(name: string, hash: string)
    ensures var i := InitialSteps();
      Apply(Apply(Apply(Apply(i, SetTarget(2, name)), SetHref(0, IpfsGateway + hash)), SetStatus(0, IsSuccess)), SetStatus(1, InProgress))
      == [ i[0].(href := IpfsGateway + hash, status := IsSuccess), i[1].(status := InProgress), i[2].(target := name) ]
  {
  }

  /**
   * A failed publish (either pin) throws before any transaction is sent:
   * only pins were issued, a failed image pin skips the metadata pin, step 0
   * is IS_ERROR, steps 1 and 2 are NOT_STARTED and step 2 names the chain.
   */
  lemma {:induction false} PublishFailureThrows(data: NewApplication, chainId: int, poolId: int, chain: ChainInfo, env: Env)
    requires !PublishSucceeds(data, env)
    ensures var run := Run(data, chainId, poolId, chain, env);
      var i := InitialSteps();
      && run.completion == Threw
      && (forall k :: 0 <= k < |run.calls| ==> run.calls[k].PinJson?)
      && (Includes(data.base64Image, ImageMarker) && env.imagePin.PinFailed? ==>
            run.calls == [PinJson(ImageData(data.base64Image))])
      && FinalSteps(data, chainId, poolId, chain, env) ==
           [ i[0].(status := IsError), i[1], i[2].(target := chain.name) ]
  {
    var i := InitialSteps();
    PublishStageOutcome(MetadataOf(data), env);
    RunReplay(i, data, chainId, poolId, chain, env);
    ReplayOne(i, SetTarget(2, chain.name));
    ReplayOne(Apply(i, SetTarget(2, chain.name)), SetStatus(0, IsError));
  }

  /** The steps after the chain name and a successful publish, from the initial steps. */
  lemma {:induction false} PublishedRun(data: NewApplication, chainId: int, poolId: int, chain: ChainInfo, env: Env)
    requires PublishSucceeds(data, env)
    ensures var pub := PublishStage(MetadataOf(data), env);
      var i := InitialSteps();
      && pub.pointer.Some?
      && InBounds(pub.updates, 3)
      && Replay(Replay(i, [SetTarget(2, chain.name)]), pub.updates) ==
           [ i[0].(href := IpfsGateway + env.metadataPin.ipfsHash, status := IsSuccess),
             i[1].(status := InProgress),
             i[2].(target := chain.name) ]
  {
    var i := InitialSteps();
    var pub := PublishStage(MetadataOf(data), env);
    PublishStageOutcome(MetadataOf(data), env);
    ReplayOne(i, SetTarget(2, chain.name));
    ReplayThree(Apply(i, SetTarget(2, chain.name)), pub.updates[0], pub.updates[1], pub.updates[2]);
    PublishedSteps(chain.name, env.metadataPin.ipfsHash);
  }

  /**
   * A registration that runs to its end: step 2 names the chain and
   * transaction and links to the explorer, step 1 is IS_SUCCESS, step 2 ends
   * with the polling outcome, and the run returns the first log's
   * `recipientId`.
   */
  lemma {:induction false} RegistrationSuccess(data: NewApplication, chainId: int, poolId: int, chain: ChainInfo, env: Env)
    requires PublishSucceeds(data, env) && RegistrationSucceeds(chain, env)
    ensures var run := Run(data, chainId, poolId, chain, env);
      var final := FinalSteps(data, chainId, poolId, chain, env);
      var tx := env.send.hash;
      && final[1] == InitialSteps()[1].(status := IsSuccess)
      && final[2] == InitialSteps()[2].(target := chain.name + " at " + tx,
                                        href := chain.explorerUrl.value + "/tx/" + tx,
                                        status := PollStatus(env))
      && run.completion == Returned(RecipientIdOf(env.receipt.logs[0].args))
  {
    RegisteredRun(data, chainId, poolId, chain, env);
    RegisterStepsAfterPublish(data, chainId, poolId, chain, env);
  }

  /**
   * A chain without a block explorer: the registration has already read
   * `recipientId` and named the transaction on step 2 when reading the
   * explorer URL throws. Step 1 is IS_ERROR, step 2 keeps the transaction
   * name but no link, and the run still polls with and returns the first
   * log's `recipientId`.
   */
  lemma {:induction false} ExplorerMissing(data: NewApplication, chainId: int, poolId: int, chain: ChainInfo, env: Env)
    requires PublishSucceeds(data, env) && Registered(env) && chain.explorerUrl.None?
    ensures var run := Run(data, chainId, poolId, chain, env);
      var final := FinalSteps(data, chainId, poolId, chain, env);
      var id := RecipientIdOf(env.receipt.logs[0].args);
      && final[1] == InitialSteps()[1].(status := IsError)
      && final[2] == InitialSteps()[2].(target := chain.name + " at " + env.send.hash, status := PollStatus(env))
      && run.completion == Returned(id)
      && |run.calls| > 0 && run.calls[|run.calls| - 1] == PollIndexed(chainId, poolId, id)
  {
    RegisteredRun(data, chainId, poolId, chain, env);
    RegisterStepsAfterPublish(data, chainId, poolId, chain, env);
  }

  /**
   * A failed registration before `recipientId` is read (send, receipt, any
   * log's decode, or no log at all): step 1 is IS_ERROR, step 2 keeps the
   * bare chain name and no link, polling still runs with an undefined
   * `recipientId` and decides step 2's status, and the run returns undefined.
   */
  lemma {:induction false} RegistrationFailure(data: NewApplication, chainId: int, poolId: int, chain: ChainInfo, env: Env)
    requires PublishSucceeds(data, env) && !Registered(env)
    ensures var run := Run(data, chainId, poolId, chain, env);
      var final := FinalSteps(data, chainId, poolId, chain, env);
      && final[1] == InitialSteps()[1].(status := IsError)
      && final[2] == InitialSteps()[2].(target := chain.name, status := PollStatus(env))
      && run.completion == Returned(None)
      && |run.calls| > 0 && run.calls[|run.calls| - 1] == PollIndexed(chainId, poolId, None)
  {
    RegisteredRun(data, chainId, poolId, chain, env);
    RegisterStepsAfterPublish(data, chainId, poolId, chain, env);
  }

  /** After a successful publish: the steps after registration and after polling, and the run's result. */
  lemma {:induction false} RegisteredRun(data: NewApplication, chainId: int, poolId: int, chain: ChainInfo, env: Env)
    requires PublishSucceeds(data, env)
    ensures var pub := PublishStage(MetadataOf(data), env);
      var run := Run(data, chainId, poolId, chain, env);
      && pub.pointer.Some?
      && var reg := RegisterStage(data, chainId, poolId, chain, pub.pointer.value, env);
      && var q := Replay(Replay(Replay(InitialSteps(), [SetTarget(2, chain.name)]), pub.updates), reg.updates);
      && FinalSteps(data, chainId, poolId, chain, env) == q[2 := q[2].(status := PollStatus(env))]
      && run.completion == Returned(reg.recipientId)
      && run.calls == pub.calls + reg.calls + [PollIndexed(chainId, poolId, reg.recipientId)]
  {
    var i := InitialSteps();
    var pub := PublishStage(MetadataOf(data), env);
    PublishedRun(data, chainId, poolId, chain, env);
    RunReplay(i, data, chainId, poolId, chain, env);
    var p := Replay(Replay(i, [SetTarget(2, chain.name)]), pub.updates);
    var reg := RegisterStage(data, chainId, poolId, chain, pub.pointer.value, env);
    RegisterSteps(p, data, chainId, poolId, chain, pub.pointer.value, env);
    RegisterStageOutcome(data, chainId, poolId, chain, pub.pointer.value, env);
    ReplayOne(Replay(p, reg.updates), SetStatus(2, PollStatus(env)));
  }

  /** `RegisterSteps` and `RegisterStageOutcome` for the steps a successful publish leaves. */
  lemma {:induction false} RegisterStepsAfterPublish(data: NewApplication, chainId: int, poolId: int, chain: ChainInfo, env: Env)
    requires PublishSucceeds(data, env)
    ensures var pub := PublishStage(MetadataOf(data), env);
      && pub.pointer.Some?
      && var reg := RegisterStage(data, chainId, poolId, chain, pub.pointer.value, env);
      && var p := Replay(Replay(InitialSteps(), [SetTarget(2, chain.name)]), pub.updates);
      && |p| == 3 && InBounds(reg.updates, 3)
      && p == [ InitialSteps()[0].(href := IpfsGateway + env.metadataPin.ipfsHash, status := IsSuccess),
                InitialSteps()[1].(status := InProgress),
                InitialSteps()[2].(target := chain.name) ]
      && var q := Replay(p, reg.updates);
      && q[0] == p[0]
      && (RegistrationSucceeds(chain, env) ==>
           && q[1] == p[1].(status := IsSuccess)
           && q[2] == p[2].(target := chain.name + " at " + env.send.hash,
                            href := chain.explorerUrl.value + "/tx/" + env.send.hash,
                            status := InProgress)
           && reg.recipientId == RecipientIdOf(env.receipt.logs[0].args))
      && (Registered(env) && chain.explorerUrl.None? ==>
           && q[1] == p[1].(status := IsError)
           && q[2] == p[2].(target := chain.name + " at " + env.send.hash)
           && reg.recipientId == RecipientIdOf(env.receipt.logs[0].args))
      && (!Registered(env) ==> q[1] == p[1].(status := IsError) && q[2] == p[2] && reg.recipientId == None)
  {
    var pub := PublishStage(MetadataOf(data), env);
    PublishedRun(data, chainId, poolId, chain, env);
    var p := Replay(Replay(InitialSteps(), [SetTarget(2, chain.name)]), pub.updates);
    RegisterSteps(p, data, chainId, poolId, chain, pub.pointer.value, env);
    RegisterStageOutcome(data, chainId, poolId, chain, pub.pointer.value, env);
  }

  /**
   * After a successful publish the registration payload carries the pinned
   * metadata hash as its pointer, with the caller's recipient address and
   * amount; the receipt wait follows for the transaction just sent, and a
   * failed send is followed by nothing but the poll.
   */
  lemma {:induction false} RegistrationCalls(data: NewApplication, chainId: int, poolId: int, chain: ChainInfo, env: Env)
    requires PublishSucceeds(data, env)
    ensures var pub := PublishStage(MetadataOf(data), env);
      var run := Run(data, chainId, poolId, chain, env);
      && |run.calls| >= |pub.calls| + 2
      && run.calls[..|pub.calls|] == pub.calls
      && run.calls[|pub.calls|] ==
           SendRegistration(chainId, poolId, data.recipientAddress, data.requestedAmount, env.metadataPin.ipfsHash)
      && (env.send.Sent? ==>
           && |run.calls| == |pub.calls| + 3
           && run.calls[|pub.calls| + 1] == WaitForReceipt(env.send.hash))
      && (env.send.SendFailed? ==> |run.calls| == |pub.calls| + 2)
  {
  }

  /**
   * Whenever the publish stage succeeds, polling runs last, with the
   * `recipientId` the run returns, and its outcome decides step 2's status.
   */
  lemma {:induction false} PollingAlwaysRuns(data: NewApplication, chainId: int, poolId: int, chain: ChainInfo, env: Env)
    requires PublishSucceeds(data, env)
    ensures var run := Run(data, chainId, poolId, chain, env);
      && run.completion.Returned?
      && |run.calls| > 0
      && run.calls[|run.calls| - 1] == PollIndexed(chainId, poolId, run.completion.recipientId)
      && FinalSteps(data, chainId, poolId, chain, env)[2].status == PollStatus(env)
  {
    RegisteredRun(data, chainId, poolId, chain, env);
  }

  /**
   * Every external call succeeds and the chain has a block explorer: all
   * three steps end IS_SUCCESS and the run returns the first log's
   * `recipientId`.
   */
  lemma {:induction false} AllSucceed(data: NewApplication, chainId: int, poolId: int, chain: ChainInfo, env: Env)
    requires PublishSucceeds(data, env) && RegistrationSucceeds(chain, env) && env.indexed
    ensures var final := FinalSteps(data, chainId, poolId, chain, env);
      && final[0].status == IsSuccess && final[1].status == IsSuccess && final[2].status == IsSuccess
      && Run(data, chainId, poolId, chain, env).completion == Returned(RecipientIdOf(env.receipt.logs[0].args))
  {
    PublishSuccessSteps(data, chainId, poolId, chain, env);
    RegistrationSuccess(data, chainId, poolId, chain, env);
  }

  /** The publish stage moves no status backwards from the statuses a run starts it with. */
  lemma {:induction false} PublishMonotone(s: seq<Step>, metadata: Metadata, env: Env)
    requires |s| == 3 && s[0].status == InProgress && s[1].status == NotStarted
    ensures InBounds(PublishStage(metadata, env).updates, 3)
    ensures Monotone(s, PublishStage(metadata, env).updates)
  {
    var us := PublishStage(metadata, env).updates;
    PublishStageOutcome(metadata, env);
    if |us| == 1 {
      MonotoneOne(s, us[0]);
      assert us == [us[0]];
    } else {
      var a := Apply(s, us[0]);
      var b := Apply(a, us[1]);
      MonotoneOne(s, us[0]);
      MonotoneOne(a, us[1]);
      MonotoneOne(b, us[2]);
      MonotoneAppend(b, [], [us[2]]);
      MonotoneAppend(a, [us[1]], [us[2]]);
      ReplayOne(s, us[0]);
      ReplayOne(a, us[1]);
      MonotoneAppend(s, [us[0]], [us[1], us[2]]);
      assert us == [us[0]] + ([us[1]] + [us[2]]);
    }
  }

  /** The registration stage moves no status backwards once step 1 is in progress and step 2 not started. */
  lemma {:induction false} RegisterMonotone(s: seq<Step>, data: NewApplication, chainId: int, poolId: int, chain: ChainInfo, pointer: string, env: Env)
    requires |s| == 3 && s[1].status == InProgress && s[2].status == NotStarted
    ensures InBounds(RegisterStage(data, chainId, poolId, chain, pointer, env).updates, 3)
    ensures Monotone(s, RegisterStage(data, chainId, poolId, chain, pointer, env).updates)
  {
    var us := RegisterStage(data, chainId, poolId, chain, pointer, env).updates;
    RegisterStageOutcome(data, chainId, poolId, chain, pointer, env);
    if |us| == 1 {
      MonotoneOne(s, us[0]);
      assert us == [us[0]];
    } else if |us| == 2 {
      var a := Apply(s, us[0]);
      MonotoneOne(s, us[0]);
      MonotoneOne(a, us[1]);
      ReplayOne(s, us[0]);
      MonotoneAppend(s, [us[0]], [us[1]]);
      assert us == [us[0]] + [us[1]];
    } else {
      var a := Apply(s, us[0]);
      var b := Apply(a, us[1]);
      var c := Apply(b, us[2]);
      MonotoneOne(s, us[0]);
      MonotoneOne(a, us[1]);
      MonotoneOne(b, us[2]);
      MonotoneOne(c, us[3]);
      ReplayOne(s, us[0]);
      ReplayOne(a, us[1]);
      ReplayOne(b, us[2]);
      MonotoneAppend(b, [us[2]], [us[3]]);
      MonotoneAppend(a, [us[1]], [us[2]] + [us[3]]);
      MonotoneAppend(s, [us[0]], [us[1]] + ([us[2]] + [us[3]]));
      assert us == [us[0]] + ([us[1]] + ([us[2]] + [us[3]]));
    }
  }

  /**
   * From the initial steps, no status moves backwards during a run: every
   * step goes NOT_STARTED, IN_PROGRESS, then IS_SUCCESS or IS_ERROR, and
   * never leaves a terminal status; only step 2 may skip IN_PROGRESS.
   */
  lemma {:induction false} RunIsMonotone(data: NewApplication, chainId: int, poolId: int, chain: ChainInfo, env: Env)
    ensures Monotone(InitialSteps(), Run(data, chainId, poolId, chain, env).updates)
  {
    var i := InitialSteps();
    var first := [SetTarget(2, chain.name)];
    var pub := PublishStage(MetadataOf(data), env);
    var run := Run(data, chainId, poolId, chain, env);
    PublishStageOutcome(MetadataOf(data), env);
    MonotoneOne(i, first[0]);
    ReplayOne(i, first[0]);
    var a := Replay(i, first);
    PublishMonotone(a, MetadataOf(data), env);
    MonotoneAppend(i, first, pub.updates);
    if pub.pointer.None? {
      assert run.updates == first + pub.updates;
    } else {
      var reg := RegisterStage(data, chainId, poolId, chain, pub.pointer.value, env);
      var poll := [SetStatus(2, PollStatus(env))];
      assert run.updates == first + pub.updates + reg.updates + poll;
      ReplayAppend(i, first, pub.updates);
      ReplayThree(a, pub.updates[0], pub.updates[1], pub.updates[2]);
      var p := Replay(a, pub.updates);
      RegisterMonotone(p, data, chainId, poolId, chain, pub.pointer.value, env);
      MonotoneAppend(i, first + pub.updates, reg.updates);
      RegisterSteps(p, data, chainId, poolId, chain, pub.pointer.value, env);
      var q := Replay(p, reg.updates);
      MonotoneOne(q, poll[0]);
      ReplayAppend(i, first + pub.updates, reg.updates);
      MonotoneAppend(i, first + pub.updates + reg.updates, poll);
    }
  }

  /** The publish stage keeps at most one step IN_PROGRESS, from the statuses a run starts it with. */
  lemma {:induction false} PublishKeepsOneInProgress(s: seq<Step>, metadata: Metadata, env: Env)
    requires |s| == 3 && s[0].status == InProgress && s[1].status == NotStarted && s[2].status == NotStarted
    ensures InBounds(PublishStage(metadata, env).updates, 3)
    ensures HoldsAlong(AtMostOneInProgress, s, PublishStage(metadata, env).updates)
  {
    var us := PublishStage(metadata, env).updates;
    PublishStageOutcome(metadata, env);
    if |us| == 1 {
      assert HoldsAlong(AtMostOneInProgress, Apply(s, us[0]), us[1..]);
    } else {
      var a := Apply(s, us[0]);
      var b := Apply(a, us[1]);
      assert HoldsAlong(AtMostOneInProgress, Apply(b, us[2]), us[3..]);
      assert HoldsAlong(AtMostOneInProgress, b, us[2..]);
      assert HoldsAlong(AtMostOneInProgress, a, us[1..]);
    }
  }

  /**
   * The registration stage keeps at most one step IN_PROGRESS, from the
   * statuses a successful publish leaves.
   */
  lemma {:induction false} RegisterKeepsOneInProgress(s: seq<Step>, data: NewApplication, chainId: int, poolId: int, chain: ChainInfo, pointer: string, env: Env)
    requires |s| == 3 && s[0].status == IsSuccess && s[1].status == InProgress && s[2].status == NotStarted
    ensures InBounds(RegisterStage(data, chainId, poolId, chain, pointer, env).updates, 3)
    ensures HoldsAlong(AtMostOneInProgress, s, RegisterStage(data, chainId, poolId, chain, pointer, env).updates)
  {
    var us := RegisterStage(data, chainId, poolId, chain, pointer, env).updates;
    RegisterStageOutcome(data, chainId, poolId, chain, pointer, env);
    var a := Apply(s, us[0]);
    if |us| == 1 {
      assert HoldsAlong(AtMostOneInProgress, a, us[1..]);
    } else if |us| == 2 {
      assert HoldsAlong(AtMostOneInProgress, Apply(a, us[1]), us[2..]);
      assert HoldsAlong(AtMostOneInProgress, a, us[1..]);
    } else {
      var b := Apply(a, us[1]);
      var c := Apply(b, us[2]);
      assert HoldsAlong(AtMostOneInProgress, Apply(c, us[3]), us[4..]);
      assert HoldsAlong(AtMostOneInProgress, c, us[3..]);
      assert HoldsAlong(AtMostOneInProgress, b, us[2..]);
      assert HoldsAlong(AtMostOneInProgress, a, us[1..]);
    }
  }

  /**
   * From the initial steps, at most one step is IN_PROGRESS before, between
   * and after all the setter calls of a run: after every prefix of them.
   */
  lemma {:induction false} RunKeepsOneInProgress(data: NewApplication, chainId: int, poolId: int, chain: ChainInfo, env: Env)
    ensures var us := Run(data, chainId, poolId, chain, env).updates;
      forall k :: 0 <= k <= |us| ==> AtMostOneInProgress(Replay(InitialSteps(), us[..k]))
  {
    var us := Run(data, chainId, poolId, chain, env).updates;
    RunHoldsOneInProgress(data, chainId, poolId, chain, env);
    forall k | 0 <= k <= |us|
      ensures AtMostOneInProgress(Replay(InitialSteps(), us[..k]))
    {
      HoldsAlongPrefix(AtMostOneInProgress, InitialSteps(), us, k);
    }
  }

  /** `AtMostOneInProgress` holds along a whole run from the initial steps. */
  lemma {:induction false} RunHoldsOneInProgress(data: NewApplication, chainId: int, poolId: int, chain: ChainInfo, env: Env)
    ensures HoldsAlong(AtMostOneInProgress, InitialSteps(), Run(data, chainId, poolId, chain, env).updates)
  {
    var i := InitialSteps();
    var first := [SetTarget(2, chain.name)];
    var pub := PublishStage(MetadataOf(data), env);
    var run := Run(data, chainId, poolId, chain, env);
    PublishStageOutcome(MetadataOf(data), env);
    ReplayOne(i, first[0]);
    var a := Replay(i, first);
    assert HoldsAlong(AtMostOneInProgress, a, first[1..]);
    PublishKeepsOneInProgress(a, MetadataOf(data), env);
    HoldsAlongAppend(AtMostOneInProgress, i, first, pub.updates);
    if pub.pointer.None? {
      assert run.updates == first + pub.updates;
    } else {
      var rest := RegisterStage(data, chainId, poolId, chain, pub.pointer.value, env).updates + [SetStatus(2, PollStatus(env))];
      assert run.updates == (first + pub.updates) + rest;
      ReplayAppend(i, first, pub.updates);
      ReplayThree(a, pub.updates[0], pub.updates[1], pub.updates[2]);
      RegisterAndPollKeepOneInProgress(Replay(a, pub.updates), data, chainId, poolId, chain, pub.pointer.value, env);
      HoldsAlongAppend(AtMostOneInProgress, i, first + pub.updates, rest);
    }
  }

  /** The registration stage and the poll after it keep at most one step IN_PROGRESS. */
  lemma {:induction false} RegisterAndPollKeepOneInProgress(p: seq<Step>, data: NewApplication, chainId: int, poolId: int, chain: ChainInfo, pointer: string, env: Env)
    requires |p| == 3 && p[0].status == IsSuccess && p[1].status == InProgress && p[2].status == NotStarted
    ensures var reg := RegisterStage(data, chainId, poolId, chain, pointer, env);
      && InBounds(reg.updates + [SetStatus(2, PollStatus(env))], 3)
      && HoldsAlong(AtMostOneInProgress, p, reg.updates + [SetStatus(2, PollStatus(env))])
  {
    var reg := RegisterStage(data, chainId, poolId, chain, pointer, env);
    var poll := [SetStatus(2, PollStatus(env))];
    RegisterKeepsOneInProgress(p, data, chainId, poolId, chain, pointer, env);
    RegisterSteps(p, data, chainId, poolId, chain, pointer, env);
    var q := Replay(p, reg.updates);
    assert AtMostOneInProgress(Apply(q, poll[0]));
    assert HoldsAlong(AtMostOneInProgress, Apply(q, poll[0]), poll[1..]);
    HoldsAlongAppend(AtMostOneInProgress, p, reg.updates, poll);
  }

  /** After a successful publish, step 0 ends IS_SUCCESS whatever the steps were before the run. */
  lemma {:induction false} PublishedStepZero(s: seq<Step>, data: NewApplication, chainId: int, poolId: int, chain: ChainInfo, env: Env)
    requires |s| == 3 && PublishSucceeds(data, env)
    ensures Replay(s, Run(data, chainId, poolId, chain, env).updates)[0].status == IsSuccess
  {
    var us := Run(data, chainId, poolId, chain, env).updates;
    PublishPrefix(data, chainId, poolId, chain, env);
    ReplayFour(s, us[0], us[1], us[2], us[3]);
    assert us[..4] == [us[0], us[1], us[2], us[3]];
    assert us == us[..4] + us[4..];
    ReplayAppend(s, us[..4], us[4..]);
    ReplayLeavesOthers(Replay(s, us[..4]), us[4..], 0);
  }

  /**
   * The steps persist across runs, so forward-only progress holds only from
   * the initial steps: after a run whose publish failed, a second run whose
   * publish succeeds moves step 0 from IS_ERROR back to IS_SUCCESS.
   */
  lemma {:induction false} RerunLeavesTerminal(data: NewApplication, env: Env, data': NewApplication, env': Env,
                            chainId: int, poolId: int, chain: ChainInfo)
    requires !PublishSucceeds(data, env) && PublishSucceeds(data', env')
    ensures var s := FinalSteps(data, chainId, poolId, chain, env);
      && s[0].status == IsError
      && Replay(s, Run(data', chainId, poolId, chain, env').updates)[0].status == IsSuccess
      && !Monotone(s, Run(data', chainId, poolId, chain, env').updates)
  {
    var s := FinalSteps(data, chainId, poolId, chain, env);
    var us := Run(data', chainId, poolId, chain, env').updates;
    PublishFailureThrows(data, chainId, poolId, chain, env);
    PublishedStepZero(s, data', chainId, poolId, chain, env');
    if Monotone(s, us) {
      MonotoneKeepsTerminal(s, us, 0);
    }
  }
}
