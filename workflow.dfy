/** Option, for the source's `undefined`. */
module Wrappers {
  datatype Option<+T> = None | Some(value: T)
}

/**
 * `createApplication` as a function of the outcomes of its external calls:
 * which setter calls it makes, which external calls it issues, and whether
 * it returns a recipient id or throws.
 */
module Workflow {
  import opened Wrappers
  import opened Progress

  /** TNewApplication, the caller's input. */
  datatype NewApplication = NewApplication(
    name: string, website: string, description: string, email: string,
    base64Image: string, profileOwner: string,
    recipientAddress: string, requestedAmount: int)

  /** The record published to IPFS; its image field is rewritten in place. */
  datatype Metadata = Metadata(
    name: string, website: string, description: string, email: string,
    base64Image: string, profileOwner: string)

  /**
   * The part of `getChain(chain)` the workflow reads: the chain's name and
   * the URL of its default block explorer, which a chain may not have.
   */
  datatype ChainInfo = ChainInfo(name: string, explorerUrl: Option<string>)

  /** Outcome of one `pinJSON` call. */
  datatype Pin = Pinned(ipfsHash: string) | PinFailed

  /** Outcome of `sendTransaction`. */
  datatype Send = Sent(hash: string) | SendFailed

  /** One receipt log, as `decodeEventLog` treats it: decoded args, or a throw. */
  datatype Log = Decodes(args: map<string, string>) | Undecodable

  /** Outcome of `waitForTransactionReceipt`. */
  datatype Receipt = Receipt(logs: seq<Log>) | ReceiptFailed

  /** The outcomes of every external call one run can make. */
  datatype Env = Env(imagePin: Pin, metadataPin: Pin, send: Send, receipt: Receipt, indexed: bool)

  /** What is handed to `pinJSON`. */
  datatype Payload = ImageData(data: string) | MetadataRecord(metadata: Metadata)

  /** An external call, with the arguments the workflow threads into it. */
  datatype Call =
    | PinJson(payload: Payload)
    | SendRegistration(chainId: int, poolId: int, recipientAddress: string, requestedAmount: int, pointer: string)
    | WaitForReceipt(hash: string)
    | PollIndexed(chainId: int, poolId: int, recipientId: Option<string>)

  /** How `createApplication` ends: it returns `recipientId` (maybe undefined) or throws. */
  datatype Completion = Returned(recipientId: Option<string>) | Threw

  /** Everything one run does. */
  datatype Plan = Plan(updates: seq<Update>, calls: seq<Call>, completion: Completion)

  const IpfsGateway: string := "https://ipfs.io/ipfs/"
  const ImageMarker: string := "base64"
  const RecipientIdKey: string := "recipientId"

  /** JavaScript's `s.includes(sub)`. */
  predicate Includes(s: string, sub: string)
    decreases |s|
  {
    sub <= s || (|s| > 0 && Includes(s[1..], sub))
  }

  /** `s.includes(sub)` holds exactly when `sub` occurs at some position of `s`. */
  lemma {:induction false} IncludesAt(s: string, sub: string)
    ensures Includes(s, sub) <==> exists i :: 0 <= i <= |s| && sub <= s[i..]
    decreases |s|
  {
    if sub <= s {
      assert sub <= s[0..];
    } else if |s| == 0 {
      forall i | 0 <= i <= |s| ensures !(sub <= s[i..]) {
        assert s[i..] == s;
      }
    } else {
      IncludesAt(s[1..], sub);
      if Includes(s[1..], sub) {
        var i :| 0 <= i <= |s[1..]| && sub <= s[1..][i..];
        assert s[1..][i..] == s[i + 1..];
      } else {
        forall i | 0 <= i <= |s| ensures !(sub <= s[i..]) {
          if i > 0 {
            assert s[i..] == s[1..][i - 1..];
          }
        }
      }
    }
  }

  /** The `metadata` object built from the caller's input. */
  function MetadataOf(data: NewApplication): (r: Metadata) {
    Metadata(data.name, data.website, data.description, data.email, data.base64Image, data.profileOwner)
  }

  /**
   * `logs.map(decodeEventLog)`: the decoded args of every log, in order, or
   * None as soon as one log does not decode.
   */
  function DecodeAll(logs: seq<Log>): (r: Option<seq<map<string, string>>>)
    ensures r.Some? <==> forall k :: 0 <= k < |logs| ==> logs[k].Decodes?
    ensures r.Some? ==> |r.value| == |logs| && forall k :: 0 <= k < |logs| ==> r.value[k] == logs[k].args
    decreases |logs|
  {
    if logs == [] then Some([])
    else match logs[0]
      case Undecodable => None
      case Decodes(args) =>
        var rest := DecodeAll(logs[1..]);
        if rest.None? then None else Some([args] + rest.value)
  }

  /** `args["recipientId"]`: undefined when the key is missing. */
  function RecipientIdOf(args: map<string, string>): (r: Option<string>) {
    if RecipientIdKey in args then Some(args[RecipientIdKey]) else None
  }

  /** Result of the publish stage: its setter calls, its pins, and `pointer`. */
  datatype Publish = Publish(updates: seq<Update>, calls: seq<Call>, pointer: Option<string>)

  /** The metadata pin and the step updates that follow it, inside the publish `try`. */
  function PinMetadata(metadata: Metadata, env: Env, before: seq<Call>): (r: Publish) {
    var calls := before + [PinJson(MetadataRecord(metadata))];
    match env.metadataPin
    case PinFailed => Publish([SetStatus(0, IsError)], calls, None)
    case Pinned(hash) =>
      Publish([SetHref(0, IpfsGateway + hash), SetStatus(0, IsSuccess), SetStatus(1, InProgress)], calls, Some(hash))
  }

  /** The publish `try`: an optional image pin, then the metadata pin; one `catch` for both. */
  function PublishStage(metadata: Metadata, env: Env): (r: Publish) {
    if Includes(metadata.base64Image, ImageMarker) then
      var imageCall := PinJson(ImageData(metadata.base64Image));
      match env.imagePin
      case PinFailed => Publish([SetStatus(0, IsError)], [imageCall], None)
      case Pinned(hash) => PinMetadata(metadata.(base64Image := hash), env, [imageCall])
    else
      PinMetadata(metadata, env, [])
  }

  /** Result of the registration stage: its setter calls, its external calls, and `recipientId`. */
  datatype Register = Register(updates: seq<Update>, calls: seq<Call>, recipientId: Option<string>)

  /**
   * The registration `try`: send, wait, decode every log, read the first
   * log's args, name the transaction on step 2, then read the explorer URL.
   * A chain without a block explorer throws at that read, after
   * `recipientId` and step 2's target are set; the `catch` then marks step 1
   * IS_ERROR and keeps both.
   */
  function RegisterStage(data: NewApplication, chainId: int, poolId: int, chain: ChainInfo,
                         pointer: string, env: Env): (r: Register)
  {
    var send := [SendRegistration(chainId, poolId, data.recipientAddress, data.requestedAmount, pointer)];
    var failed := [SetStatus(1, IsError)];
    match env.send
    case SendFailed => Register(failed, send, None)
    case Sent(tx) =>
      var calls := send + [WaitForReceipt(tx)];
      match env.receipt
      case ReceiptFailed => Register(failed, calls, None)
      case Receipt(logs) =>
        var decoded := DecodeAll(logs);
        if decoded.None? || |decoded.value| == 0 then Register(failed, calls, None)
        else
          var recipientId := RecipientIdOf(decoded.value[0]);
          var named := SetTarget(2, chain.name + " at " + tx);
          match chain.explorerUrl
          case None => Register([named] + failed, calls, recipientId)
          case Some(url) =>
            Register([ named,
                       SetHref(2, url + "/tx/" + tx),
                       SetStatus(1, IsSuccess),
                       SetStatus(2, InProgress) ],
                     calls, recipientId)
  }

  /** The status the polling stage gives step 2. */
  function PollStatus(env: Env): (r: Status) {
    if env.indexed then IsSuccess else IsError
  }

  /** Result of the polling stage: its setter call and its poll. */
  datatype Poll = Poll(updates: seq<Update>, calls: seq<Call>)

  /** The polling `try`: one outcome, success or failure. */
  function PollStage(chainId: int, poolId: int, recipientId: Option<string>, env: Env): (r: Poll) {
    Poll([SetStatus(2, PollStatus(env))], [PollIndexed(chainId, poolId, recipientId)])
  }

  /**
   * One whole `createApplication` run. A failed publish leaves `pointer`
   * undefined, and reading `pointer.IpfsHash` for the registration payload,
   * outside any `try`, throws before anything is sent.
   */
  function Run(data: NewApplication, chainId: int, poolId: int, chain: ChainInfo, env: Env): (r: Plan)
    ensures InBounds(r.updates, 3)
  {
    var first := [SetTarget(2, chain.name)];
    var pub := PublishStage(MetadataOf(data), env);
    if pub.pointer.None? then
      Plan(first + pub.updates, pub.calls, Threw)
    else
      var reg := RegisterStage(data, chainId, poolId, chain, pub.pointer.value, env);
      var poll := PollStage(chainId, poolId, reg.recipientId, env);
      Plan(first + pub.updates + reg.updates + poll.updates,
           pub.calls + reg.calls + poll.calls,
           Returned(reg.recipientId))
  }
}
