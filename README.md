# AiCore assistant run tracking, in Dafny

This project models the run-tracking core of the AiCore game-server plugin. That core is the part
that drives "assistant runs" on a remote AI API for other plugins:

- `TrackedRun` is the run record. It holds a locally generated tracking UUID, the assistant,
  thread and run ids the remote side returned, the last snapshot of the thread's messages
  (`output`), and `lastUpdated`. `getLastMessage` picks the assistant's reply out of the snapshot.
- `AssistantService` keeps the registry `trackedRuns`, a map from UUID to record.
  `createNewRun` resolves the assistant, creates a thread, posts the input and starts a run,
  and only then stamps and registers a record. The two `sendRun` overloads post a further
  message and re-snapshot the thread into the record. `createRunCompletion` polls the run's
  status and either stores the thread's messages on a terminal status or schedules itself
  again after 20 ticks.

Files:

- `Remote.dfy` (module `Remote`) covers the remote API as the core sees it. This is the
  response data the core reads and an `Api` value that fixes the remote side's answer to every
  request. A thrown client exception is an `Err` answer. It also holds the `Call` type, which
  records the requests an operation issues, in order.
- `TrackedRun.dfy` (module `Runs`) holds the record as a class whose fields are updated in
  place. Java `null` is `None`. It also holds `getLastMessage` as a pure selection whose
  exceptions are values (`Fault`).
- `AssistantService.dfy` (module `Assistants`) holds the service as a class with a
  `map` field. One run of the poller's task is `PollRun`. Its self-rescheduling is the
  recursion of `CreateRunCompletion` over what the remote side shows at successive polls.
  A client method, `PendingPendingCompletedScenario`, creates a run for assistant "A1". It
  then lets the remote side answer pending, pending, completed, and proves that exactly
  three polls happen, that the output is stored, and that `GetLastMessage` returns the
  reply.

Facts about the code that the model keeps:

- On a terminal poll the code stores whatever list `listMessages` returns, so `output` is set
  but may hold no messages.
- Nothing orders `lastUpdated`: each update stores whatever `new Date()` gives.
- The terminal literal is `requires_action`, with an underscore, and the three comparisons are
  case-sensitive.

## Model

| member | source | states |
|---|---|---|
| `Runs.FindFirstAssistant` | src/main/java/dev/arctic/aicore/assistants/TrackedRun.java:79-82 | the stream `filter`/`findFirst` yields the position of the first message whose role is exactly "assistant", and every earlier message has another role (or a null one); it yields nothing exactly when no message has that role |
| `Runs.LastContentText` | src/main/java/dev/arctic/aicore/assistants/TrackedRun.java:86-88 | indexing `size()-1` fails with an index error exactly when the content list is empty; otherwise a last element without text fails with a null-pointer error and one with text yields that text |
| `Runs.SelectLastMessage` | src/main/java/dev/arctic/aicore/assistants/TrackedRun.java:78-93 | a null output throws a null-pointer error; the result is null exactly when no message has the assistant role; otherwise it is the last content element's text of the FIRST assistant message, an index error when that message has no content, or a null-pointer error when that element has no text |
| `Runs.LastMessageIgnoresLaterMessages` | src/main/java/dev/arctic/aicore/assistants/TrackedRun.java:79-81 | once an assistant message exists, appending any further messages does not change the selection (findFirst, not findLast) |
| `Runs.LastMessageSkipsOtherRoles` | src/main/java/dev/arctic/aicore/assistants/TrackedRun.java:80-81 | a message of another role placed in front does not change the selection |
| `Runs.TrackedRun.constructor` | src/main/java/dev/arctic/aicore/assistants/TrackedRun.java:18-51 | the no-argument constructor leaves every field null, `output` included |
| `Runs.TrackedRun.CreateTrackedRun` | src/main/java/dev/arctic/aicore/assistants/TrackedRun.java:62-70 | sets `uuid` to the fresh id, the three handles to exactly the given arguments and `lastUpdated` to the clock, leaves `output` as it was, and returns this same object |
| `Runs.TrackedRun.SetOutput` | src/main/java/dev/arctic/aicore/assistants/TrackedRun.java:49-50 | the Lombok setter replaces `output` and nothing else |
| `Runs.TrackedRun.SetLastUpdated` | src/main/java/dev/arctic/aicore/assistants/TrackedRun.java:51 | the Lombok setter replaces `lastUpdated` and nothing else |
| `Runs.TrackedRun.GetLastMessage` | src/main/java/dev/arctic/aicore/assistants/TrackedRun.java:78-93 | is the selection above applied to the record's current `output`; it reads the record and modifies no field |
| `Assistants.Decide` | src/main/java/dev/arctic/aicore/assistants/AssistantService.java:125 | polling stops exactly when the status is one of the three terminal strings, with a null status not terminal; otherwise it re-polls after 20 ticks |
| `Assistants.StatusMatchIsCaseSensitive` | src/main/java/dev/arctic/aicore/assistants/AssistantService.java:125 | the comparison is exact: "Completed", "FAILED", "requires-action" and null all re-poll |
| `Assistants.StepOutcome` | src/main/java/dev/arctic/aicore/assistants/AssistantService.java:124-134 | a `retrieveRun` exception aborts the poll with that exception; a non-terminal status re-schedules with a 20-tick delay; a terminal status finishes with the list `listMessages` returns, or aborts with `listMessages`'s exception |
| `Assistants.AssistantService.constructor` | src/main/java/dev/arctic/aicore/assistants/AssistantService.java:33-43 | the registry starts empty |
| `Assistants.AssistantService.CreateNewRun` | src/main/java/dev/arctic/aicore/assistants/AssistantService.java:53-69 | the four remote calls are issued in order with the retrieved assistant's id and the created thread's id, and stop at the first that throws; on any failure the registry is unchanged; on success a fresh record holding the fresh id, the assistant, thread and run ids and the clock, with no output, is added under that id, and the registry grows by one when the id was new |
| `Assistants.AssistantService.AppendAndSnapshot` | src/main/java/dev/arctic/aicore/assistants/AssistantService.java:86-88 | posts the input on the record's thread, then lists the thread; on success the record's output is that list and its timestamp the clock, with its ids unchanged; if either call throws, the record is untouched |
| `Assistants.AssistantService.SendRun` | src/main/java/dev/arctic/aicore/assistants/AssistantService.java:80-93 | an unknown key raises `IllegalArgumentException` with the source's message and issues no remote call; a known key gets the append-and-snapshot effect on its own record; the registry maps every key to the same record as before, and only that record may change |
| `Assistants.AssistantService.SendRunRecord` | src/main/java/dev/arctic/aicore/assistants/AssistantService.java:101-109 | the append-and-snapshot effect on the given record; on success the record is put under its own uuid (null included), which adds an entry when it was not tracked; on failure the registry is unchanged |
| `Assistants.AssistantService.PollRun` | src/main/java/dev/arctic/aicore/assistants/AssistantService.java:122-135 | the outcome is that of one poll of the record's thread and run; the messages are listed only after a terminal status; a finished poll stores the list and the clock and keeps the ids; a re-scheduled or aborted poll leaves the record unmodified |
| `Assistants.AssistantService.CreateRunCompletion` | src/main/java/dev/arctic/aicore/assistants/AssistantService.java:120-137 | every poll before the last re-scheduled; if a poll did not re-schedule, no further poll happens; the last outcome is that of the last poll made; only a finished last poll changes the record, storing that poll's list and time |

## Left out

- The API client (`retrieveAssistant`, `createThread`, `createMessage`, `createRun`, `retrieveRun`, `listMessages`) is a foreign network library. The model represents it only as the `Api` answers an operation receives. Request building, JSON and HTTP are not modelled.
- The Bukkit scheduler (`BukkitRunnable`, `runTaskAsynchronously`, `runTaskLaterAsynchronously`) and the off-thread sharing of the `HashMap` are concurrency. The model has one thread. The 20-tick delay is a value in the outcome, not elapsed time.
- `UUID.randomUUID()` is the caller-supplied `freshId`. Its freshness is not assumed, so `CreateNewRun` states growth by one entry only when the id was not already a key.
- `new Date()` is the caller-supplied `now`. Nothing orders successive timestamps, because the code does not either.
- `Assistants.AssistantService.CreateRunCompletion` covers finitely many polls, one per supplied view. A run that stays pending polls forever in the source; in the model it is still pending when the views run out.
- The object `createMessage` returns is discarded by the source and ignored by the model.
- Lombok's `@AllArgsConstructor`, `equals`, `hashCode` and `toString` are not used by the core. Getters are plain field reads.
- Null arguments are not modelled: a null assistant id (rejected by `@NonNull`), a null record given to `sendRun` or `createRunCompletion`, and a null input. Parameters have non-null types.
- Null collections inside responses (`getData()`, `getContent()` returning null) and a null `getValue()` are not modelled. Lists are sequences, and a text part's value is a string.
- A client exception inside the poller's task is modelled as an `Aborted` outcome that ends polling. How the scheduler logs it is not modelled.
- `ChatService.java`, `CommandManager.java`, `TabComplete.java`, `AiCore.java`, `AiCoreService.java` and `AiModel.java` are not part of this model. They are chat-completion glue, command UI, plugin lifecycle and configuration.
