# SeaGrants application workflow, modelled in Dafny

This project models the application context of SeaGrants
(`src/context/ApplicationContext.tsx`). The context does two things:

- it keeps a progress tracker of three steps: save to IPFS, register on the
  pool, index;
- it runs `createApplication`, which publishes the application's metadata to
  IPFS, registers the recipient on a MicroGrants pool with a transaction,
  and waits for the indexer.

Every external call is given to the model as an outcome, in `Workflow.Env`:

- the image `pinJSON` and the metadata `pinJSON` (pinned hash or failure);
- `sendTransaction` (transaction hash or failure);
- `waitForTransactionReceipt` (a list of logs or failure);
- `decodeEventLog` (per log: decoded args or a throw);
- `pollUntilDataIsIndexed` (success or failure).

With these outcomes fixed, the run is a plain function of them. The function
gives the setter calls in order, the external calls issued with the values
threaded into them, and whether the run returns a `recipientId` or throws.

Files:

- `progress.dfy` (module `Progress`): the step record, the initial steps, and
  the three setters as a pure update `Apply` and its iteration `Replay`. It
  also defines what it means for statuses to move forward only (`Advances`,
  `Monotone`), that at most one step is IN_PROGRESS (`AtMostOneInProgress`),
  and that a property holds after every setter call of a batch (`HoldsAlong`).
- `workflow.dfy` (modules `Wrappers`, `Workflow`): the external outcomes, the
  three stages (`PublishStage`, `RegisterStage`, `PollStage`) and the whole
  run `Run`. It also models JavaScript's `includes` and the per-log decoding.
- `context.dfy` (module `Context`): class `ApplicationContext`. It holds the
  shared step array and the imperative setters. `CreateApplication` mutates
  that array and is proved to match `Run`.
- `properties.dfy` (module `Properties`): what a run does to the steps,
  calls and result for every combination of outcomes. From the initial
  steps it also proves forward-only progress, and that at most one step is
  IN_PROGRESS at any point of a run.

The model follows the code as written, including these behaviours:

- The image pin and the metadata pin share one `try`. A failed image pin is
  therefore fatal to the publish stage and skips the metadata pin.
- A failed publish is not contained. `pointer` stays undefined, and
  `pointer.IpfsHash` is read outside any `try` (line 138). So
  `createApplication` throws before any transaction is sent, and steps 1 and
  2 stay NOT_STARTED.
- The polling stage runs even after registration failed. When it failed
  before `recipientId` was read, polling runs with an undefined
  `recipientId`. In every failed case it sets step 2 straight from
  NOT_STARTED to IS_SUCCESS or IS_ERROR.
- Every receipt log is decoded, and one undecodable log fails the whole
  stage. `recipientId` is read from the first log; an empty log list fails
  the stage too. If the first log's args have no `recipientId` key, the
  stage still succeeds and the run returns undefined.
- The block explorer URL is read after `recipientId` is set (line 159) and
  after step 2 is named after the transaction (line 164). For a chain without
  a block explorer, that read throws (line 167). Step 1 then goes to IS_ERROR,
  step 2 keeps the transaction name but gets no link, and the run still polls
  with, and returns, the `recipientId` it read.
- The setters copy the array shallowly and then mutate the shared step
  objects. Updates therefore persist across runs. Forward-only progress is
  proved for a run that starts from the initial steps, and
  `RerunLeavesTerminal` shows it fails for a second run.

## Model

| member | source | states |
|---|---|---|
| `Progress.Apply` | src/context/ApplicationContext.tsx:66-82 | one setter call changes exactly the named field of the step at `index`; the length, every other step and every other field stay as they were |
| `Progress.Replay` | src/context/ApplicationContext.tsx:66-82 | any sequence of setter calls keeps the array's length |
| `Progress.InitialSteps` | src/context/ApplicationContext.tsx:28-50 | the three initial step records; no contract of its own, `Properties.InitialStepStatuses` states their ids, statuses and targets |
| `Progress.ReplayAppend` | src/context/ApplicationContext.tsx:66-82 | applying two batches of setter calls one after the other is applying their concatenation |
| `Progress.ReplayLeavesOthers` | src/context/ApplicationContext.tsx:66-82 | setter calls that never address step `i` leave step `i` unchanged |
| `Progress.MonotoneKeepsTerminal` | src/context/ApplicationContext.tsx:72-76 | under forward-only status updates, a step in IS_SUCCESS or IS_ERROR stays in it |
| `Context.ApplicationContext.constructor` | src/context/ApplicationContext.tsx:28-50 | the tracker starts as the three initial step records |
| `Context.ApplicationContext.UpdateStepTarget` | src/context/ApplicationContext.tsx:66-70 | overwrites the target of the step at `index` in place and nothing else |
| `Context.ApplicationContext.UpdateStepStatus` | src/context/ApplicationContext.tsx:72-76 | overwrites the status of the step at `index` in place and nothing else |
| `Context.ApplicationContext.UpdateStepHref` | src/context/ApplicationContext.tsx:78-82 | overwrites the href of the step at `index` in place and nothing else |
| `Context.ApplicationContext.CreateApplication` | src/context/ApplicationContext.tsx:84-196 | the new steps are the old ones with the run's setter calls applied in order; the external calls issued and the return-or-throw are those of `Workflow.Run` |
| `Context.ApplicationContext.SaveMetadata` | src/context/ApplicationContext.tsx:105-123 | the publish `try`/`catch` mutates the steps, issues the pins and yields `pointer` exactly as `Workflow.PublishStage` says |
| `Context.ApplicationContext.RegisterRecipient` | src/context/ApplicationContext.tsx:142-175 | the registration `try`/`catch` mutates the steps, issues the send and receipt wait and yields `recipientId` exactly as `Workflow.RegisterStage` says, including the partial updates before a missing explorer throws |
| `Workflow.IncludesAt` | src/context/ApplicationContext.tsx:109 | the `includes` test holds exactly when the substring occurs at some position |
| `Workflow.Includes` | src/context/ApplicationContext.tsx:109 | the `includes("base64")` test; no contract of its own, `Workflow.IncludesAt` states what it decides |
| `Workflow.MetadataOf` | src/context/ApplicationContext.tsx:96-103 | the metadata record copied from the caller's input; no contract of its own, `Properties.SinglePinWithoutImage` and `Properties.ImagePinnedBeforeMetadata` state what is pinned from it |
| `Workflow.DecodeAll` | src/context/ApplicationContext.tsx:155-157 | decoding the logs succeeds exactly when every log decodes, and then yields every log's args in order |
| `Workflow.RecipientIdOf` | src/context/ApplicationContext.tsx:159 | `args["recipientId"]`, undefined when the key is missing; no contract of its own, `Properties.RegisterStageOutcome` states where the run uses it |
| `Workflow.PinMetadata` | src/context/ApplicationContext.tsx:116-122 | the metadata pin and its updates or the `catch`; no contract of its own, `Properties.PublishStageOutcome` states its updates and pointer |
| `Workflow.PublishStage` | src/context/ApplicationContext.tsx:108-123 | the publish `try`/`catch`; no contract of its own, `Properties.PublishStageOutcome`, `Properties.ImagePinnedBeforeMetadata` and `Properties.SinglePinWithoutImage` state its updates, pins and pointer |
| `Workflow.RegisterStage` | src/context/ApplicationContext.tsx:131-175 | the registration `try`/`catch`; no contract of its own, `Properties.RegisterStageOutcome`, `Properties.RegisterSteps` and `Properties.RegistrationCalls` state its updates, `recipientId` and calls |
| `Workflow.PollStage` | src/context/ApplicationContext.tsx:177-193 | the polling `try`/`catch`; no contract of its own, `Properties.PollingAlwaysRuns` states its call and step 2's status, given by `Workflow.PollStatus` (IS_SUCCESS when the recipient is indexed, IS_ERROR otherwise) |
| `Workflow.Run` | src/context/ApplicationContext.tsx:84-196 | every setter call of a run addresses one of the three steps |
| `Properties.InitialStepStatuses` | src/context/ApplicationContext.tsx:28-50 | step 0 starts IN_PROGRESS with target IPFS, step 1 NOT_STARTED with target POOL, step 2 NOT_STARTED with no target |
| `Properties.RunStartsWithChainName` | src/context/ApplicationContext.tsx:89-91 | a run's first setter call sets step 2's target to the chain name |
| `Properties.PublishStageOutcome` | src/context/ApplicationContext.tsx:108-123 | the publish stage yields a pointer exactly when every pin it attempts succeeds; then it sets step 0's href and IS_SUCCESS and starts step 1; otherwise its only update is step 0 to IS_ERROR |
| `Properties.ImagePinnedBeforeMetadata` | src/context/ApplicationContext.tsx:108-116 | with a "base64" image, the image is pinned first, then the metadata carrying the image hash in place of the image, and no other pin follows |
| `Properties.SinglePinWithoutImage` | src/context/ApplicationContext.tsx:108-116 | without a "base64" image there is exactly one pin, of the metadata with its image field unchanged |
| `Properties.PublishSuccessSteps` | src/context/ApplicationContext.tsx:116-119 | after a successful publish, step 0 links to `https://ipfs.io/ipfs/<hash>` and is IS_SUCCESS, step 1 is IN_PROGRESS; step 0 stays so to the end of the run |
| `Properties.PublishFailureThrows` | src/context/ApplicationContext.tsx:106-140 | a failed pin makes the run throw with only pins issued (just the image pin when it is the one that failed); step 0 is IS_ERROR, steps 1 and 2 are NOT_STARTED, step 2 names the chain |
| `Properties.RegisterStageOutcome` | src/context/ApplicationContext.tsx:142-175 | registration has three outcomes. (1) The send and receipt wait succeed, every log decodes, there is a first log, and the chain has an explorer: the stage sets step 2's target and link, step 1 IS_SUCCESS and step 2 IN_PROGRESS, and reads `recipientId` from the first log. (2) Same, but the chain has no explorer: the stage sets step 2's target and then step 1 IS_ERROR, and keeps the `recipientId` it read. (3) Any earlier failure: the stage only sets step 1 IS_ERROR, and `recipientId` stays undefined |
| `Properties.RegisterSteps` | src/context/ApplicationContext.tsx:142-175 | from any three steps: step 0 is untouched; step 1 ends IS_SUCCESS when registration runs to its end and IS_ERROR otherwise; step 2 is renamed after the transaction whenever `recipientId` was read, and is linked and started only on full success |
| `Properties.RegistrationCalls` | src/context/ApplicationContext.tsx:131-152 | after a successful publish, the send carries the pinned metadata hash as pointer with the caller's recipient address and amount; a sent transaction is followed by the receipt wait for its hash and then the poll, a failed send by the poll alone |
| `Properties.RegistrationSuccess` | src/context/ApplicationContext.tsx:142-171 | after a full registration step 2 reads "<chain> at <tx>" and links to "<explorer>/tx/<tx>", step 1 is IS_SUCCESS, and the run returns the first log's `recipientId` |
| `Properties.ExplorerMissing` | src/context/ApplicationContext.tsx:159-175 | when the chain has no block explorer, step 1 is IS_ERROR and step 2 reads "<chain> at <tx>" with no link. The run still polls with the first log's `recipientId` and returns it |
| `Properties.RegistrationFailure` | src/context/ApplicationContext.tsx:149-175 | when registration fails before `recipientId` is read, step 1 is IS_ERROR and step 2 keeps the bare chain name and no link. Polling still runs with an undefined id, and the run returns undefined |
| `Properties.PollingAlwaysRuns` | src/context/ApplicationContext.tsx:177-195 | once publishing succeeded, polling is the last call, with the id the run returns, and its outcome decides step 2's final status |
| `Properties.AllSucceed` | src/context/ApplicationContext.tsx:84-196 | when every external call succeeds and the chain has a block explorer, all three steps end IS_SUCCESS and the run returns the first log's `recipientId` |
| `Properties.PublishMonotone` | src/context/ApplicationContext.tsx:108-123 | from step 0 IN_PROGRESS and step 1 NOT_STARTED (the statuses a run reaches it with), the publish stage moves no status backwards |
| `Properties.RegisterMonotone` | src/context/ApplicationContext.tsx:142-175 | from step 1 IN_PROGRESS and step 2 NOT_STARTED (the statuses a successful publish leaves), the registration stage moves no status backwards |
| `Properties.RunIsMonotone` | src/context/ApplicationContext.tsx:84-196 | from the initial steps, every status only goes NOT_STARTED, IN_PROGRESS, IS_SUCCESS or IS_ERROR, never leaves a terminal status, and only step 2 may skip IN_PROGRESS |
| `Progress.HoldsAlongAppend` | src/context/ApplicationContext.tsx:66-82 | a property of the steps that holds along two batches of setter calls holds along their concatenation |
| `Progress.HoldsAlongPrefix` | src/context/ApplicationContext.tsx:66-82 | a property of the steps that holds along a batch of setter calls holds after every prefix of it |
| `Properties.PublishKeepsOneInProgress` | src/context/ApplicationContext.tsx:108-123 | from the statuses a run starts with, at most one step is IN_PROGRESS before, during and after the publish stage |
| `Properties.RegisterKeepsOneInProgress` | src/context/ApplicationContext.tsx:142-175 | from the statuses a successful publish leaves, at most one step is IN_PROGRESS before, during and after the registration stage |
| `Properties.RegisterAndPollKeepOneInProgress` | src/context/ApplicationContext.tsx:142-195 | the same holds through registration followed by the poll |
| `Properties.RunKeepsOneInProgress` | src/context/ApplicationContext.tsx:84-196 | from the initial steps, at most one step is IN_PROGRESS after every prefix of a run's setter calls |
| `Properties.RerunLeavesTerminal` | src/context/ApplicationContext.tsx:64-82 | because the steps persist across runs, a run after a failed publish moves step 0 from IS_ERROR to IS_SUCCESS, so forward-only progress fails for a second run |

## Left out

- The two `ETarget` values come from `src/app/types`, which is not part of this model. The model uses "IPFS" and "POOL" for them.
- `getChain(chain)` is passed in as a `ChainInfo` value: a name and an optional block-explorer URL. A missing explorer is modelled (it throws at line 167). A lookup that fails outright, so that `chainInfo.name` throws at line 91, is not modelled.
- The fields of `TNewApplication` come from `src/app/types`, which is not part of this model. `base64Image` is modelled as a string, so an undefined image cannot throw in `includes`. `requestedAmount` is modelled as an integer.
- The IPFS client, wagmi's `sendTransaction` and `waitForTransactionReceipt` are network I/O. Each one is one success-or-failure outcome.
- `decodeEventLog` and the MicroGrants ABI are foreign decoding. A log either decodes to a string-to-string args map or throws.
- `MicroGrantsStrategy` and its payload builder are foreign code. Only the arguments that reach the transaction are recorded: chain, pool, recipient address, requested amount and pointer. The constants `protocol: 1` and `value: 1` are not recorded, and a throw from the builder itself is not modelled.
- `pollUntilDataIsIndexed` and `checkIfRecipientIsIndexedQuery` are not part of this model. Their retry interval and attempt budget are not visible, so polling is one success-or-failure outcome. No property about the number of polling attempts is stated.
- React's state scheduling (`useState`, `setSteps`, re-rendering), the context provider and its default value, and `console.log` are not modelled. The setters act directly on the one persistent array.
- `Context.ApplicationContext.constructor`: builds a fresh array from the initial steps. The source instead starts every mounted provider's state from the one module-level `initialSteps` array (lines 28, 54 and 64). Since the setters mutate those step objects in place (lines 67-68), a provider remounted later starts from the steps an earlier run left, not from the initial ones. The model has one tracker per object and does not capture this sharing between providers. `RerunLeavesTerminal` states the same persistence for two runs on one tracker.
- The shallow copy `[...steps]` is not modelled separately from the in-place field update, since the update lands on the shared step objects.
- `Context.ApplicationContext.UpdateStepTarget`, `UpdateStepStatus` and `UpdateStepHref` require `index < 3`; all calls use the constants 0, 1 and 2. An out-of-range index, which would throw in the source, is not modelled.
- The asynchronous scheduling of `createApplication` is not modelled. Each awaited call is treated as finishing before the next statement runs, and two overlapping runs on the shared steps are not modelled.
- `src/components/shared/CropModal.tsx` is image-cropping UI (file reading, canvas drawing, floating-point scaling) and is not part of this model.
