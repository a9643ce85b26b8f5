/**
 * The completion stream the agent returns for one prompt, and how the
 * orchestration handler reduces it to one string: the decoded bytes of
 * every `chunk` event, in order. Events without a `chunk`, or whose chunk
 * has no `bytes`, add nothing; an error event makes the iteration raise.
 */
module AgentStream {
  import opened Values

  datatype StreamEvent =
    | Chunk(bytes: Option<string>)  // an event with a `chunk` entry; `bytes` already decoded
    | Other                         // a trace or any other event without a `chunk` entry
    | Fault(message: string)        // an error event: iterating the stream raises

  /** What one event adds to the answer. */
  function Piece(e: StreamEvent): string {
    if e.Chunk? && e.bytes.Some? then e.bytes.value else ""
  }

  /** The text of the chunks in `events`, in delivery order. */
  function Text(events: seq<StreamEvent>): string {
    if events == [] then "" else Text(events[..|events| - 1]) + Piece(events[|events| - 1])
  }

  ghost predicate FaultFree(events: seq<StreamEvent>) {
    forall i | 0 <= i < |events| :: !events[i].Fault?
  }

  ghost predicate FirstFaultAt(events: seq<StreamEvent>, i: int) {
    0 <= i < |events| && events[i].Fault? && FaultFree(events[..i])
  }

  /** The message of the first error event, if the stream has one. */
  function FirstFault(events: seq<StreamEvent>): (r: Option<string>)
    ensures r.None? <==> FaultFree(events)
    ensures forall i | FirstFaultAt(events, i) :: r == Some(events[i].message)
  {
    if events == [] then None
    else if events[0].Fault? then Some(events[0].message)
    else
      var r := FirstFault(events[1..]);
      assert forall i | FirstFaultAt(events, i) :: i > 0 && FirstFaultAt(events[1..], i - 1) by {
        forall i | FirstFaultAt(events, i) ensures i > 0 && FirstFaultAt(events[1..], i - 1) {
          assert events[1..][..i - 1] == events[..i][1..];
        }
      }
      r
  }

  /** The answer the stream yields, or the error it raises. */
  function Completion(events: seq<StreamEvent>): Result<string, string> {
    match FirstFault(events)
    case Some(message) => Err(message)
    case None => Ok(Text(events))
  }

  /** Concatenation distributes over splitting the stream. */
  lemma {:induction false} TextAppend(a: seq<StreamEvent>, b: seq<StreamEvent>)
    ensures Text(a + b) == Text(a) + Text(b)
    decreases |b|
  {
    if b != [] {
      var last := b[|b| - 1];
      assert (a + b)[..|a + b| - 1] == a + b[..|b| - 1];
      TextAppend(a, b[..|b| - 1]);
    } else {
      assert a + b == a;
    }
  }

  /** A stream of three chunks "a", "b", "c" yields "abc"; an empty stream yields "". */
  lemma ThreeChunks()
    ensures Completion([Chunk(Some("a")), Chunk(Some("b")), Chunk(Some("c"))]) == Ok("abc")
    ensures Completion([]) == Ok("")
  {
    var events := [Chunk(Some("a")), Chunk(Some("b")), Chunk(Some("c"))];
    assert events[..2][..1] == [Chunk(Some("a"))];
    assert events[..2] == [Chunk(Some("a")), Chunk(Some("b"))];
    assert Text(events[..2][..1]) == "a";
    assert Text(events[..2]) == "a" + "b";
    assert Text(events) == "a" + "b" + "c" == "abc";
    assert FaultFree(events);
  }

  /**
   * The `for event in event_stream` loop: appends the decoded bytes of each
   * chunk to `agent_response`; an error event raises.
   */
  method ReadCompletion(events: seq<StreamEvent>) returns (r: Result<string, string>)
    ensures r == Completion(events)
  {
    var response := "";
    var i := 0;
    while i < |events|
      invariant 0 <= i <= |events|
      invariant FaultFree(events[..i])
      invariant response == Text(events[..i])
    {
      var event := events[i];
      assert events[..i + 1][..i] == events[..i];
      match event {
        case Fault(message) =>
          assert FirstFaultAt(events, i);
          return Err(message);
        case Chunk(bytes) =>
          if bytes.Some? {
            response := response + bytes.value;
          }
        case Other =>
      }
      i := i + 1;
    }
    assert events[..i] == events;
    r := Ok(response);
  }
}
