/**
 * The application context provider: one persistent array of three steps,
 * three setters that overwrite one field of one step in place, and
 * `createApplication`, with every external call's outcome passed in as `env`.
 */
module Context {
  import opened Wrappers
  import opened Progress
  import opened Workflow

  class ApplicationContext {
    /** The shared step records; updates land on them in place and persist across runs. */
    const steps: array<Step>

    predicate Valid() {
      steps.Length == 3
    }

    constructor ()
      ensures Valid() && fresh(steps)
      ensures steps[..] == InitialSteps()
    {
      steps := new Step[3] [InitialSteps()[0], InitialSteps()[1], InitialSteps()[2]];
    }

    method UpdateStepTarget(index: nat, target: string)
      requires Valid() && index < 3
      modifies steps
      ensures steps[..] == Apply(old(steps[..]), SetTarget(index, target))
    {
      steps[index] := steps[index].(target := target);
    }

    method UpdateStepStatus(index: nat, status: Status)
      requires Valid() && index < 3
      modifies steps
      ensures steps[..] == Apply(old(steps[..]), SetStatus(index, status))
    {
      steps[index] := steps[index].(status := status);
    }

    method UpdateStepHref(index: nat, href: string)
      requires Valid() && index < 3
      modifies steps
      ensures steps[..] == Apply(old(steps[..]), SetHref(index, href))
    {
      steps[index] := steps[index].(href := href);
    }

    /**
     * `createApplication(data, chain, poolId)`: the new steps are the old
     * ones with the run's setter calls applied in order, and the external
     * calls and the completion are those of `Run`.
     */
    method CreateApplication(data: NewApplication, chainId: int, poolId: int, chain: ChainInfo, env: Env)
      returns (calls: seq<Call>, completion: Completion)
      requires Valid()
      modifies steps
      ensures steps[..] == Replay(old(steps[..]), Run(data, chainId, poolId, chain, env).updates)
      ensures calls == Run(data, chainId, poolId, chain, env).calls
      ensures completion == Run(data, chainId, poolId, chain, env).completion
    {
      ghost var start := steps[..];
      UpdateStepTarget(2, chain.name);
      ghost var first := [SetTarget(2, chain.name)];

      // Publish the metadata to IPFS.
      var pointer;
      calls, pointer := SaveMetadata(MetadataOf(data), env);
      ghost var pub := PublishStage(MetadataOf(data), env);
      ReplayAppend(start, first, pub.updates);

      // Register the recipient on the pool: reading `pointer.IpfsHash` throws when it is undefined.
      if pointer.None? {
        completion := Threw;
        return;
      }
      var registerCalls, recipientId := RegisterRecipient(data, chainId, poolId, chain, pointer.value, env);
      ghost var reg := RegisterStage(data, chainId, poolId, chain, pointer.value, env);
      ReplayAppend(start, first + pub.updates, reg.updates);

      // Poll the indexer for the recipient.
      UpdateStepStatus(2, PollStatus(env));
      ReplayOne(Replay(start, first + pub.updates + reg.updates), SetStatus(2, PollStatus(env)));
      ReplayAppend(start, first + pub.updates + reg.updates, [SetStatus(2, PollStatus(env))]);

      calls := calls + registerCalls + [PollIndexed(chainId, poolId, recipientId)];
      completion := Returned(recipientId);
    }

    /** The publish `try` block of `createApplication`, with its `catch`. */
    method SaveMetadata(metadata: Metadata, env: Env) returns (calls: seq<Call>, pointer: Option<string>)
      requires Valid()
      modifies steps
      ensures InBounds(PublishStage(metadata, env).updates, 3)
      ensures steps[..] == Replay(old(steps[..]), PublishStage(metadata, env).updates)
      ensures calls == PublishStage(metadata, env).calls
      ensures pointer == PublishStage(metadata, env).pointer
    {
      var meta := metadata;
      var failed := false;
      calls := [];
      pointer := None;
      if Includes(meta.base64Image, ImageMarker) {
        calls := calls + [PinJson(ImageData(meta.base64Image))];
        match env.imagePin {
          case Pinned(hash) => meta := meta.(base64Image := hash);
          case PinFailed => failed := true;
        }
      }
      if !failed {
        calls := calls + [PinJson(MetadataRecord(meta))];
        match env.metadataPin {
          case Pinned(hash) =>
            pointer := Some(hash);
            ghost var s0 := steps[..];
            UpdateStepHref(0, IpfsGateway + hash);
            UpdateStepStatus(0, IsSuccess);
            UpdateStepStatus(1, InProgress);
            ReplayThree(s0, SetHref(0, IpfsGateway + hash), SetStatus(0, IsSuccess), SetStatus(1, InProgress));
          case PinFailed => failed := true;
        }
      }
      if failed {
        UpdateStepStatus(0, IsError);
        assert Replay(old(steps[..]), [SetStatus(0, IsError)]) == steps[..];
      }
    }

    /** The registration `try` block of `createApplication`, with its `catch`. */
    method RegisterRecipient(data: NewApplication, chainId: int, poolId: int, chain: ChainInfo,
                             pointer: string, env: Env)
      returns (calls: seq<Call>, recipientId: Option<string>)
      requires Valid()
      modifies steps
      ensures InBounds(RegisterStage(data, chainId, poolId, chain, pointer, env).updates, 3)
      ensures steps[..] == Replay(old(steps[..]), RegisterStage(data, chainId, poolId, chain, pointer, env).updates)
      ensures calls == RegisterStage(data, chainId, poolId, chain, pointer, env).calls
      ensures recipientId == RegisterStage(data, chainId, poolId, chain, pointer, env).recipientId
    {
      calls := [SendRegistration(chainId, poolId, data.recipientAddress, data.requestedAmount, pointer)];
      recipientId := None;
      var registered := false;
      ghost var s0 := steps[..];
      ghost var before: seq<Update> := [];
      match env.send {
        case SendFailed =>
        case Sent(tx) =>
          calls := calls + [WaitForReceipt(tx)];
          match env.receipt {
            case ReceiptFailed =>
            case Receipt(logs) =>
              var decoded := DecodeAll(logs);
              if decoded.Some? && |decoded.value| > 0 {
                recipientId := RecipientIdOf(decoded.value[0]);
                UpdateStepTarget(2, chain.name + " at " + tx);
                before := [SetTarget(2, chain.name + " at " + tx)];
                ReplayOne(s0, before[0]);
                // Reading the explorer URL throws when the chain has no block explorer.
                match chain.explorerUrl {
                  case None =>
                  case Some(url) =>
                    registered := true;
                    UpdateStepHref(2, url + "/tx/" + tx);
                    UpdateStepStatus(1, IsSuccess);
                    UpdateStepStatus(2, InProgress);
                    ReplayFour(s0, before[0], SetHref(2, url + "/tx/" + tx), SetStatus(1, IsSuccess), SetStatus(2, InProgress));
                }
              }
          }
      }
      if !registered {
        ghost var mid := steps[..];
        UpdateStepStatus(1, IsError);
        ReplayOne(mid, SetStatus(1, IsError));
        ReplayAppend(s0, before, [SetStatus(1, IsError)]);
      }
    }
  }
}
