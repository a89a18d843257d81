/**
 * The assistant service: a registry of tracked runs keyed by tracking id, the
 * operations that create a run and send further messages to it, and the poller that
 * waits for a run to reach a terminal status.
 *
 * The host scheduler is not modelled as such. One execution of the poller's task is
 * `PollRun`; its re-scheduling of itself is the recursion of `CreateRunCompletion`,
 * which is given what the remote side shows at each successive poll.
 */
module Assistants {
  import opened Remote
  import opened Runs

  /** Ticks the poller waits before looking at a pending run again. */
  const PollDelayTicks: nat := 20

  /** The run statuses after which polling stops. */
  const TerminalStatuses: set<string> := {"completed", "failed", "requires_action"}

  const NoSuchRunMessage := "No tracked run found with the provided UUID."

  /** The errors the service's synchronous operations raise to their callers. */
  datatype ServiceError = IllegalArgument(message: string) | RemoteFailure(error: RemoteError)

  /** What the poller does after reading a run's status. */
  datatype Decision = Done | Reschedule(delayTicks: nat)

  /** The status test of the poller: three exact, case-sensitive comparisons; a null
      status matches none of them. */
  function Decide(status: Option<string>): (d: Decision)
    ensures d == Done <==> status.Some? && status.value in TerminalStatuses
    ensures d.Reschedule? ==> d.delayTicks == PollDelayTicks
  {
    if status != Some("completed") && status != Some("failed") && status != Some("requires_action")
    then Reschedule(PollDelayTicks)
    else Done
  }

  /** Only those three spellings are terminal. */
  lemma StatusMatchIsCaseSensitive()
    ensures Decide(Some("Completed")) == Reschedule(PollDelayTicks)
    ensures Decide(Some("FAILED")) == Reschedule(PollDelayTicks)
    ensures Decide(Some("requires-action")) == Reschedule(PollDelayTicks)
    ensures Decide(None) == Reschedule(PollDelayTicks)
  {
  }

  /** How one execution of the poller's task ends. `Aborted` is an exception thrown
      by the client inside the task: the task dies and nothing is scheduled. */
  datatype PollOutcome =
    | Finished(messages: MessageList)
    | Rescheduled(delayTicks: nat)
    | Aborted(error: RemoteError)

  /** The outcome of one poll of the run `runId` on thread `threadId`. */
  function StepOutcome(api: Api, threadId: Option<string>, runId: Option<string>): (o: PollOutcome)
    ensures api.retrieveRun(threadId, runId).Err? ==> o == Aborted(api.retrieveRun(threadId, runId).error)
    ensures api.retrieveRun(threadId, runId).Ok? && Decide(api.retrieveRun(threadId, runId).value.status).Reschedule? ==>
      o == Rescheduled(PollDelayTicks)
    ensures api.retrieveRun(threadId, runId).Ok? && Decide(api.retrieveRun(threadId, runId).value.status) == Done ==>
      match api.listMessages(threadId)
      case Err(e) => o == Aborted(e)
      case Ok(list) => o == Finished(list)
  {
    match api.retrieveRun(threadId, runId)
    case Err(e) => Aborted(e)
    case Ok(run) =>
      match Decide(run.status)
      case Reschedule(delay) => Rescheduled(delay)
      case Done =>
        match api.listMessages(threadId)
        case Err(e) => Aborted(e)
        case Ok(list) => Finished(list)
  }

  /** What the remote side shows, and what the clock says, at one poll. */
  datatype PollView = PollView(api: Api, now: Timestamp)

  /** Between the two states only `output` and `lastUpdated` of `rec` may differ. */
  twostate predicate IdentityKept(rec: TrackedRun)
    reads rec
  {
    && rec.uuid == old(rec.uuid)
    && rec.assistantId == old(rec.assistantId)
    && rec.threadId == old(rec.threadId)
    && rec.runId == old(rec.runId)
  }

  /**
   * The effect of appending `input` to the thread of `rec` and re-reading its
   * messages: on success the record's output is the thread's message list and its
   * timestamp is `now`; when either remote call throws, the record is untouched.
   */
  twostate predicate MessageSent(rec: TrackedRun, input: string, api: Api, now: Timestamp,
                                 new r: Result<TrackedRun, ServiceError>, calls: seq<Call>)
    reads rec
  {
    var tid := old(rec.threadId);
    var sent := api.createMessage(tid, input);
    var listed := api.listMessages(tid);
    && (sent.Err? ==>
          r == Err(RemoteFailure(sent.error)) && calls == [CreateMessage(tid, input)] && unchanged(rec))
    && (sent.Ok? && listed.Err? ==>
          && r == Err(RemoteFailure(listed.error))
          && calls == [CreateMessage(tid, input), ListMessages(tid)]
          && unchanged(rec))
    && (sent.Ok? && listed.Ok? ==>
          && r == Ok(rec)
          && calls == [CreateMessage(tid, input), ListMessages(tid)]
          && IdentityKept(rec)
          && rec.output == Some(listed.value)
          && rec.lastUpdated == Some(now))
  }

  class AssistantService {
    /** The registry. The key is optional because a `HashMap` accepts a null key, which
        `SendRunRecord` uses for a record that was never stamped. */
    var trackedRuns: map<Option<Uuid>, TrackedRun>

    constructor ()
      ensures trackedRuns == map[]
    {
      trackedRuns := map[];
    }

    /**
     * Resolves the assistant, creates a thread, posts `input` to it and starts a run;
     * only when all four remote calls succeed is a new record stamped and registered
     * under its tracking id. `freshId` stands for `UUID.randomUUID()`, `now` for
     * `new Date()`.
     */
    method CreateNewRun(assistantRef: string, input: string, api: Api, freshId: Uuid, now: Timestamp)
      returns (r: Result<TrackedRun, RemoteError>, calls: seq<Call>)
      modifies this
      ensures r.Err? ==> trackedRuns == old(trackedRuns)
      ensures var assistant := api.retrieveAssistant(assistantRef);
        assistant.Err? ==> r == Err(assistant.error) && calls == [RetrieveAssistant(assistantRef)]
      ensures var assistant, thread := api.retrieveAssistant(assistantRef), api.createThread;
        assistant.Ok? && thread.Err? ==>
          r == Err(thread.error) && calls == [RetrieveAssistant(assistantRef), CreateThread]
      ensures var assistant, thread := api.retrieveAssistant(assistantRef), api.createThread;
        assistant.Ok? && thread.Ok? && api.createMessage(Some(thread.value.id), input).Err? ==>
          && r == Err(api.createMessage(Some(thread.value.id), input).error)
          && calls == [RetrieveAssistant(assistantRef), CreateThread, CreateMessage(Some(thread.value.id), input)]
      ensures var assistant, thread := api.retrieveAssistant(assistantRef), api.createThread;
        assistant.Ok? && thread.Ok? && api.createMessage(Some(thread.value.id), input).Ok? ==>
          var run := api.createRun(thread.value.id, assistant.value.id);
          && calls == [RetrieveAssistant(assistantRef), CreateThread, CreateMessage(Some(thread.value.id), input),
                       CreateRun(thread.value.id, assistant.value.id)]
          && (run.Err? ==> r == Err(run.error))
          && (run.Ok? ==>
                && r.Ok? && fresh(r.value)
                && trackedRuns == old(trackedRuns)[Some(freshId) := r.value]
                && r.value.uuid == Some(freshId)
                && r.value.assistantId == Some(assistant.value.id)
                && r.value.threadId == Some(thread.value.id)
                && r.value.runId == Some(run.value.id)
                && r.value.output == None
                && r.value.lastUpdated == Some(now))
      ensures r.Ok? && Some(freshId) !in old(trackedRuns) ==> |trackedRuns| == |old(trackedRuns)| + 1
    {
      calls := [RetrieveAssistant(assistantRef)];
      var assistant := api.retrieveAssistant(assistantRef);
      if assistant.Err? {
        return Err(assistant.error), calls;
      }
      calls := calls + [CreateThread];
      var thread := api.createThread;
      if thread.Err? {
        return Err(thread.error), calls;
      }
      calls := calls + [CreateMessage(Some(thread.value.id), input)];
      var message := api.createMessage(Some(thread.value.id), input);
      if message.Err? {
        return Err(message.error), calls;
      }
      calls := calls + [CreateRun(thread.value.id, assistant.value.id)];
      var run := api.createRun(thread.value.id, assistant.value.id);
      if run.Err? {
        return Err(run.error), calls;
      }
      var record := new TrackedRun();
      record := record.CreateTrackedRun(freshId, assistant.value.id, thread.value.id, run.value.id, now);
      trackedRuns := trackedRuns[record.uuid := record];
      r := Ok(record);
    }

    /** Appends `input` to the thread of `rec` and snapshots the thread into it
        (the three lines both `sendRun` overloads share). */
    method AppendAndSnapshot(rec: TrackedRun, input: string, api: Api, now: Timestamp)
      returns (r: Result<TrackedRun, ServiceError>, calls: seq<Call>)
      modifies rec
      ensures MessageSent(rec, input, api, now, r, calls)
    {
      calls := [CreateMessage(rec.threadId, input)];
      var message := api.createMessage(rec.threadId, input);
      if message.Err? {
        return Err(RemoteFailure(message.error)), calls;
      }
      calls := calls + [ListMessages(rec.threadId)];
      var listed := api.listMessages(rec.threadId);
      if listed.Err? {
        return Err(RemoteFailure(listed.error)), calls;
      }
      rec.SetOutput(Some(listed.value));
      rec.SetLastUpdated(Some(now));
      r := Ok(rec);
    }

    /**
     * `sendRun(UUID, String)`: an unknown key is an `IllegalArgumentException`
     * raised before any remote call; a known key has its record updated in place.
     * The registry is the same map afterwards either way, and no other record changes.
     */
    method SendRun(key: Option<Uuid>, input: string, api: Api, now: Timestamp)
      returns (r: Result<TrackedRun, ServiceError>, calls: seq<Call>)
      modifies this, if key in trackedRuns then {trackedRuns[key]} else {}
      ensures trackedRuns == old(trackedRuns)
      ensures key !in trackedRuns ==> r == Err(IllegalArgument(NoSuchRunMessage)) && calls == []
      ensures key in trackedRuns ==> MessageSent(trackedRuns[key], input, api, now, r, calls)
    {
      if key !in trackedRuns {
        return Err(IllegalArgument(NoSuchRunMessage)), [];
      }
      var rec := trackedRuns[key];
      r, calls := AppendAndSnapshot(rec, input, api, now);
      if r.Ok? {
        trackedRuns := trackedRuns[key := rec];
      }
    }

    /**
     * `sendRun(TrackedRun, String)`: updates `run` in place and, on success, puts it
     * under its own tracking id, which adds an entry when it was not yet tracked.
     */
    method SendRunRecord(run: TrackedRun, input: string, api: Api, now: Timestamp)
      returns (r: Result<TrackedRun, ServiceError>, calls: seq<Call>)
      modifies this, run
      ensures MessageSent(run, input, api, now, r, calls)
      ensures r.Ok? ==> trackedRuns == old(trackedRuns)[run.uuid := run]
      ensures r.Err? ==> trackedRuns == old(trackedRuns)
      ensures r.Ok? && old(run.uuid) !in old(trackedRuns) ==> |trackedRuns| == |old(trackedRuns)| + 1
    {
      r, calls := AppendAndSnapshot(run, input, api, now);
      if r.Ok? {
        trackedRuns := trackedRuns[run.uuid := run];
      }
    }

    /**
     * One execution of the poller's task: read the run's status; on a terminal status
     * store the thread's messages and the time; otherwise ask for one more poll after
     * `PollDelayTicks` and leave the record as it is.
     */
    method PollRun(run: TrackedRun, api: Api, now: Timestamp) returns (outcome: PollOutcome, calls: seq<Call>)
      modifies run
      ensures outcome == StepOutcome(api, old(run.threadId), old(run.runId))
      ensures var status := api.retrieveRun(old(run.threadId), old(run.runId));
        calls == if status.Ok? && Decide(status.value.status) == Done
                 then [RetrieveRun(old(run.threadId), old(run.runId)), ListMessages(old(run.threadId))]
                 else [RetrieveRun(old(run.threadId), old(run.runId))]
      ensures outcome.Finished? ==>
        IdentityKept(run) && run.output == Some(outcome.messages) && run.lastUpdated == Some(now)
      ensures !outcome.Finished? ==> unchanged(run)
    {
      calls := [RetrieveRun(run.threadId, run.runId)];
      var retrieved := api.retrieveRun(run.threadId, run.runId);
      if retrieved.Err? {
        return Aborted(retrieved.error), calls;
      }
      var decision := Decide(retrieved.value.status);
      if decision.Reschedule? {
        return Rescheduled(decision.delayTicks), calls;
      }
      calls := calls + [ListMessages(run.threadId)];
      var listed := api.listMessages(run.threadId);
      if listed.Err? {
        return Aborted(listed.error), calls;
      }
      run.SetOutput(Some(listed.value));
      run.SetLastUpdated(Some(now));
      outcome := Finished(listed.value);
    }

    /**
     * `createRunCompletion`: polls once per view, re-polling exactly while the outcome
     * is `Rescheduled`. `polls` is the number of polls made and `last` the outcome of
     * the last one; when the views run out after a `Rescheduled` the run is still
     * pending. Only a `Finished` poll changes the record.
     */
    method CreateRunCompletion(run: TrackedRun, views: seq<PollView>) returns (polls: nat, last: Option<PollOutcome>)
      modifies run
      decreases |views|
      ensures polls <= |views| && (|views| > 0 ==> polls > 0)
      ensures last.None? <==> polls == 0
      ensures forall i :: 0 <= i < polls - 1 ==>
        StepOutcome(views[i].api, old(run.threadId), old(run.runId)).Rescheduled?
      ensures polls > 0 ==> last == Some(StepOutcome(views[polls - 1].api, old(run.threadId), old(run.runId)))
      ensures polls < |views| ==> !last.value.Rescheduled?
      ensures last.Some? && last.value.Finished? ==>
        IdentityKept(run) && run.output == Some(last.value.messages) && run.lastUpdated == Some(views[polls - 1].now)
      ensures !(last.Some? && last.value.Finished?) ==> unchanged(run)
    {
      if |views| == 0 {
        return 0, None;
      }
      var outcome, calls := PollRun(run, views[0].api, views[0].now);
      if !outcome.Rescheduled? {
        return 1, Some(outcome);
      }
      var more, final := CreateRunCompletion(run, views[1..]);
      polls := more + 1;
      last := if more == 0 then Some(outcome) else final;
    }
  }

  /** Create a run for assistant "A1" with input "hello", then let the remote side
      answer pending, pending, completed: the third poll finishes and no fourth poll
      happens although a fourth view is available. */
  method PendingPendingCompletedScenario() {
    var pending := Api(
      id => Ok(Assistant("A1")),
      Ok(Thread("T1")),
      (t, s) => Ok(Message(Some("user"), [MessageContent(Some(s))])),
      (t, a) => Ok(Run("R1", Some("queued"))),
      (t, r) => Ok(Run("R1", Some("in_progress"))),
      t => Ok(MessageList([]))
    );
    var answer := MessageList([Message(Some("assistant"), [MessageContent(Some("hi"))])]);
    var completed := pending.(retrieveRun := (t, r) => Ok(Run("R1", Some("completed"))),
                              listMessages := t => Ok(answer));
    var service := new AssistantService();
    var created, calls := service.CreateNewRun("A1", "hello", pending, 7, 0);
    assert created.Ok?;
    var run := created.value;
    assert service.trackedRuns == map[Some(7) := run];
    assert run.assistantId == Some("A1") && run.output == None;

    var views := [PollView(pending, 20), PollView(pending, 40), PollView(completed, 60), PollView(completed, 80)];
    assert StepOutcome(views[0].api, Some("T1"), Some("R1")).Rescheduled?;
    assert StepOutcome(views[1].api, Some("T1"), Some("R1")).Rescheduled?;
    assert StepOutcome(views[2].api, Some("T1"), Some("R1")) == Finished(answer);
    var polls, last := service.CreateRunCompletion(run, views);
    assert polls == 3;
    assert run.output == Some(answer) && run.lastUpdated == Some(60);
    assert run.GetLastMessage() == Ok(Some("hi"));
  }
}
