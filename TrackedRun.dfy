/**
 * The run record: the identity of one remote assistant run (a locally generated
 * tracking id plus the assistant, thread and run handles the remote side returned),
 * the latest snapshot of the thread's messages and the time of the last update.
 */
module Runs {
  import opened Remote

  /** A 128-bit UUID. */
  type Uuid = n: nat | n < 0x1_0000_0000_0000_0000_0000_0000_0000_0000

  /** A `java.util.Date`, as milliseconds since the epoch. */
  type Timestamp = int

  /** The runtime exceptions `getLastMessage` can raise. */
  datatype Fault = NullPointer | IndexOutOfBounds

  const AssistantRole := "assistant"

  /** The stream filter: the role test is exact, case-sensitive string equality,
      and a null role never matches. */
  predicate IsAssistant(m: Message) {
    m.role == Some(AssistantRole)
  }

  /** `i` is the position of the first assistant message of `msgs`. */
  ghost predicate IsFirstAssistant(msgs: seq<Message>, i: int) {
    && 0 <= i < |msgs|
    && IsAssistant(msgs[i])
    && forall j :: 0 <= j < i ==> !IsAssistant(msgs[j])
  }

  /** `filter(...).findFirst()`: the position of the first assistant message, if any. */
  function FindFirstAssistant(msgs: seq<Message>): (r: Option<nat>)
    ensures r.Some? ==> IsFirstAssistant(msgs, r.value)
    ensures r.None? ==> forall j :: 0 <= j < |msgs| ==> !IsAssistant(msgs[j])
  {
    if |msgs| == 0 then None
    else if IsAssistant(msgs[0]) then Some(0)
    else match FindFirstAssistant(msgs[1..])
      case None => None
      case Some(i) => Some(i + 1)
  }

  /** `content.get(content.size() - 1).getText().getValue()`. */
  function LastContentText(content: seq<MessageContent>): (r: Result<Option<string>, Fault>)
    ensures r == Err(IndexOutOfBounds) <==> |content| == 0
    ensures |content| > 0 && content[|content| - 1].text.None? ==> r == Err(NullPointer)
    ensures |content| > 0 && content[|content| - 1].text.Some? ==> r == Ok(content[|content| - 1].text)
  {
    if |content| == 0 then Err(IndexOutOfBounds)
    else match content[|content| - 1].text
      case None => Err(NullPointer)
      case Some(t) => Ok(Some(t))
  }

  /**
   * `getLastMessage` over a record's output: the text of the last content element of
   * the FIRST assistant message in list order, `Ok(None)` (Java's null) when there is
   * no assistant message, and the exception the Java code would raise otherwise.
   */
  function SelectLastMessage(output: Option<MessageList>): (r: Result<Option<string>, Fault>)
    ensures output.None? ==> r == Err(NullPointer)
    ensures output.Some? ==>
      (r == Ok(None) <==> forall j :: 0 <= j < |output.value.data| ==> !IsAssistant(output.value.data[j]))
    ensures forall i | output.Some? && IsFirstAssistant(output.value.data, i) ::
      var c := output.value.data[i].content;
      && (|c| == 0 ==> r == Err(IndexOutOfBounds))
      && (|c| > 0 && c[|c| - 1].text.None? ==> r == Err(NullPointer))
      && (|c| > 0 && c[|c| - 1].text.Some? ==> r == Ok(c[|c| - 1].text))
  {
    match output
    case None => Err(NullPointer)
    case Some(list) =>
      match FindFirstAssistant(list.data)
      case None => Ok(None)
      case Some(i) => LastContentText(list.data[i].content)
  }

  /** Messages after the first assistant message never affect the selection. */
  lemma {:induction false} LastMessageIgnoresLaterMessages(data: seq<Message>, later: seq<Message>)
    requires exists i :: 0 <= i < |data| && IsAssistant(data[i])
    ensures SelectLastMessage(Some(MessageList(data + later))) == SelectLastMessage(Some(MessageList(data)))
  {
    var k := FindFirstAssistant(data);
    assert IsFirstAssistant(data + later, k.value) by {
      forall j | 0 <= j <= k.value ensures (data + later)[j] == data[j] { }
    }
  }

  /** Messages from other roles in front of the first assistant message are skipped. */
  lemma LastMessageSkipsOtherRoles(m: Message, data: seq<Message>)
    requires !IsAssistant(m)
    ensures SelectLastMessage(Some(MessageList([m] + data))) == SelectLastMessage(Some(MessageList(data)))
  {
  }

  /**
   * A tracked run. Lombok's `@Data` getters are plain field reads here; the two setters
   * the core uses are `SetOutput` and `SetLastUpdated`.
   */
  class TrackedRun {
    var uuid: Option<Uuid>
    var assistantId: Option<string>
    var threadId: Option<string>
    var runId: Option<string>
    var output: Option<MessageList>
    var lastUpdated: Option<Timestamp>

    /** `@NoArgsConstructor`: every field null. */
    constructor ()
      ensures uuid == None && assistantId == None && threadId == None && runId == None
      ensures output == None && lastUpdated == None
    {
      uuid, assistantId, threadId, runId := None, None, None, None;
      output, lastUpdated := None, None;
    }

    /**
     * Stamps this record with a fresh tracking id, the three remote handles and the
     * current time, and returns this same object. `freshId` stands for
     * `UUID.randomUUID()` and `now` for `new Date()`.
     */
    method CreateTrackedRun(freshId: Uuid, assistant: string, thread: string, run: string, now: Timestamp)
      returns (r: TrackedRun)
      modifies this
      ensures r == this
      ensures uuid == Some(freshId)
      ensures assistantId == Some(assistant) && threadId == Some(thread) && runId == Some(run)
      ensures lastUpdated == Some(now)
      ensures output == old(output)
    {
      uuid := Some(freshId);
      assistantId := Some(assistant);
      threadId := Some(thread);
      runId := Some(run);
      lastUpdated := Some(now);
      r := this;
    }

    method SetOutput(o: Option<MessageList>)
      modifies this`output
      ensures output == o
    {
      output := o;
    }

    method SetLastUpdated(d: Option<Timestamp>)
      modifies this`lastUpdated
      ensures lastUpdated == d
    {
      lastUpdated := d;
    }

    /** `getLastMessage`: reads `output` and changes nothing. */
    function GetLastMessage(): (r: Result<Option<string>, Fault>)
      reads this
      ensures r == SelectLastMessage(output)
    {
      SelectLastMessage(output)
    }
  }
}
