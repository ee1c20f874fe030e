/**
 * The downlink receiver: one iteration of the receive loop dispatches one
 * inbound message on the state the receiver shares with playback and with
 * the response recorder.
 *
 * The source's receive loop assigns `current_response_buffer` without
 * declaring it global, which makes the name local to the whole function:
 * the segment accumulator is then never extended and never saved (the
 * UnboundLocalError is caught by the loop's handler). `Dispatch` models the
 * evident intent stated next to that code (extend, save, reset), and it is
 * what the client uses; `DispatchAsWritten` models the code as it runs.
 */
module Downlink {
  import opened Audio
  import opened Wrappers
  import opened ResponseFiles

  const AUDIO_DELTA: string := "response.audio.delta"
  const AUDIO_DONE: string := "response.audio.done"

  /**
   * What one `ws.recv()` yields, already parsed. A delta whose payload is
   * missing or does not decode carries `None`.
   */
  datatype Inbound =
    | ConnectionClosed                              // recv raised connection-closed
    | EmptyMessage                                  // recv returned an empty message
    | Unparseable                                   // the text is not JSON or has no type
    | Event(kind: string, delta: Option<seq<byte>>)

  /** The state the receive loop reads and writes. */
  datatype Downlink = Downlink(
    playback: seq<byte>,          // audio_buffer
    segment: seq<byte>,           // current_response_buffer
    responses: seq<seq<byte>>,    // response_audio_buffers
    counter: nat,                 // response_counter
    saved: seq<Artifact>)         // the files written so far, in order

  /** A message after which the receive loop stops. */
  predicate Ends(m: Inbound)
  {
    m.ConnectionClosed? || m.EmptyMessage?
  }

  predicate IsDone(m: Inbound)
  {
    m.Event? && m.kind == AUDIO_DONE
  }

  /** The decoded audio a message carries: non-empty only for a decodable delta. */
  function Payload(m: Inbound): seq<byte>
  {
    if m.Event? && m.kind == AUDIO_DELTA && m.delta.Some? then m.delta.value else []
  }

  /** `save_response_audio`: name the file by the counter, bump it, write the bytes. */
  function Save(d: Downlink, data: seq<byte>): (d': Downlink)
    ensures d'.counter == d.counter + 1
    ensures |d'.saved| == |d.saved| + 1 && d'.saved[..|d.saved|] == d.saved
    ensures d'.saved[|d.saved|] == Artifact(ResponseFileName(d.counter), data)
    ensures d'.playback == d.playback && d'.segment == d.segment && d'.responses == d.responses
  {
    d.(counter := d.counter + 1, saved := d.saved + [Artifact(ResponseFileName(d.counter), data)])
  }

  /**
   * One loop iteration, as intended. Playback only ever grows at its end, by
   * the message's payload; a done event closes the segment into one new
   * response and one new file and empties the accumulator; any other message
   * leaves every buffer as it was.
   */
  function Dispatch(d: Downlink, m: Inbound): (d': Downlink)
    ensures d'.playback == d.playback + Payload(m)
    ensures IsDone(m) ==>
      && d'.responses == d.responses + [d.segment]
      && d'.saved == d.saved + [Artifact(ResponseFileName(d.counter), d.segment)]
      && d'.counter == d.counter + 1
      && d'.segment == []
    ensures !IsDone(m) ==>
      && d'.segment == d.segment + Payload(m)
      && d'.responses == d.responses && d'.saved == d.saved && d'.counter == d.counter
    ensures Payload(m) == [] && !IsDone(m) ==> d' == d
  {
    match m
    case Event(kind, delta) =>
      if kind == AUDIO_DELTA then
        match delta
        case None => d
        case Some(bytes) => d.(playback := d.playback + bytes, segment := d.segment + bytes)
      else if kind == AUDIO_DONE then
        Save(d.(responses := d.responses + [d.segment]), d.segment).(segment := [])
      else d
    case _ => d
  }

  /**
   * One loop iteration as the code runs: the delta reaches playback before
   * the unbound local is touched, and a done event fails before it changes
   * anything.
   */
  function DispatchAsWritten(d: Downlink, m: Inbound): (d': Downlink)
    ensures d'.playback == d.playback + Payload(m)
    ensures d'.segment == d.segment && d'.responses == d.responses
    ensures d'.counter == d.counter && d'.saved == d.saved
  {
    match m
    case Event(kind, delta) =>
      if kind == AUDIO_DELTA then
        match delta
        case None => d
        case Some(bytes) => d.(playback := d.playback + bytes)
      else d
    case _ => d
  }

  /**
   * The receive loop over the messages `inbox` delivers, until one ends it;
   * playback gets exactly the payloads read, in arrival order.
   */
  function Receive(d: Downlink, inbox: seq<Inbound>): (d': Downlink)
    ensures d'.playback == d.playback + Delivered(inbox)
    decreases |inbox|
  {
    if inbox == [] || Ends(inbox[0]) then d else Receive(Dispatch(d, inbox[0]), inbox[1..])
  }

  /** The receive loop as the code runs; playback still gets every payload read, in order. */
  function ReceiveAsWritten(d: Downlink, inbox: seq<Inbound>): (d': Downlink)
    ensures d'.playback == d.playback + Delivered(inbox)
    decreases |inbox|
  {
    if inbox == [] || Ends(inbox[0]) then d
    else ReceiveAsWritten(DispatchAsWritten(d, inbox[0]), inbox[1..])
  }

  /** How many messages the loop reads from `inbox`, the one that ends it included. */
  function Read(inbox: seq<Inbound>): (n: nat)
    ensures n <= |inbox|
    decreases |inbox|
  {
    if inbox == [] then 0 else if Ends(inbox[0]) then 1 else 1 + Read(inbox[1..])
  }

  /** The audio the loop appends to playback, in arrival order. */
  function Delivered(inbox: seq<Inbound>): seq<byte>
    decreases |inbox|
  {
    if inbox == [] || Ends(inbox[0]) then [] else Payload(inbox[0]) + Delivered(inbox[1..])
  }

  /** The concatenation of a run of payloads. */
  function Concat(parts: seq<seq<byte>>): seq<byte>
    decreases |parts|
  {
    if parts == [] then [] else parts[0] + Concat(parts[1..])
  }

  /** A run of delta events carrying `parts`. */
  function Deltas(parts: seq<seq<byte>>): (ms: seq<Inbound>)
    ensures |ms| == |parts|
    ensures forall i | 0 <= i < |ms| :: ms[i] == Event(AUDIO_DELTA, Some(parts[i]))
  {
    seq(|parts|, i requires 0 <= i < |parts| => Event(AUDIO_DELTA, Some(parts[i])))
  }

  /**
   * Response bookkeeping is consistent: every saved file is named by its
   * position, the counter counts the files, and each recorded response is
   * the data of the file saved with it.
   */
  ghost predicate Numbered(d: Downlink)
  {
    && |d.saved| == d.counter
    && |d.responses| == d.counter
    && (forall i | 0 <= i < |d.saved| :: d.saved[i].name == ResponseFileName(i))
    && (forall i | 0 <= i < |d.saved| :: d.saved[i].data == d.responses[i])
  }

  /** Unrecognised event types and unparseable messages change nothing and do not stop the loop. */
  lemma ReceiveSkipsInert(d: Downlink, m: Inbound, rest: seq<Inbound>)
    requires m.Unparseable? || (m.Event? && m.kind != AUDIO_DELTA && m.kind != AUDIO_DONE)
    ensures Receive(d, [m] + rest) == Receive(d, rest)
    ensures Read([m] + rest) == 1 + Read(rest)
  {
  }

  /** An empty message or a closed connection ends the loop with nothing changed. */
  lemma ReceiveStopsAtEnd(d: Downlink, m: Inbound, rest: seq<Inbound>)
    requires Ends(m)
    ensures Receive(d, [m] + rest) == d
    ensures Read([m] + rest) == 1
  {
  }

  lemma {:induction false} ReceiveDeltas(d: Downlink, parts: seq<seq<byte>>, rest: seq<Inbound>)
    ensures Receive(d, Deltas(parts) + rest)
         == Receive(d.(playback := d.playback + Concat(parts), segment := d.segment + Concat(parts)), rest)
    decreases |parts|
  {
    var ms := Deltas(parts) + rest;
    if parts == [] {
      assert ms == rest;
      assert d.playback + Concat(parts) == d.playback && d.segment + Concat(parts) == d.segment;
    } else {
      var m := Event(AUDIO_DELTA, Some(parts[0]));
      assert ms[0] == m;
      var d1 := d.(playback := d.playback + parts[0], segment := d.segment + parts[0]);
      assert Dispatch(d, m) == d1;
      assert ms[1..] == Deltas(parts[1..]) + rest;
      assert Receive(d, ms) == Receive(d1, ms[1..]);
      ReceiveDeltas(d1, parts[1..], rest);
      assert d1.playback + Concat(parts[1..]) == d.playback + Concat(parts);
      assert d1.segment + Concat(parts[1..]) == d.segment + Concat(parts);
    }
  }

  /**
   * A response boundary: starting from an empty accumulator, a run of deltas
   * followed by one done event saves exactly one file, named by the counter,
   * whose bytes are all the payloads in arrival order; playback got the same
   * bytes and the accumulator is empty again.
   */
  lemma SegmentBoundary(d: Downlink, parts: seq<seq<byte>>)
    requires d.segment == []
    ensures var d' := Receive(d, Deltas(parts) + [Event(AUDIO_DONE, None)]);
      && d'.saved == d.saved + [Artifact(ResponseFileName(d.counter), Concat(parts))]
      && d'.responses == d.responses + [Concat(parts)]
      && d'.counter == d.counter + 1
      && d'.playback == d.playback + Concat(parts)
      && d'.segment == []
  {
    var done := Event(AUDIO_DONE, None);
    ReceiveDeltas(d, parts, [done]);
    var d1 := d.(playback := d.playback + Concat(parts), segment := d.segment + Concat(parts));
    assert d1.segment == Concat(parts);
    assert [done][1..] == [];
    assert Receive(d1, [done]) == Dispatch(d1, done);
  }

  /**
   * Three deltas of 4000, 4000 and 2000 bytes and one done event: playback
   * grows by 10000 bytes and exactly one file of 10000 bytes is saved.
   */
  lemma ThreeDeltasOneResponse(d: Downlink, a: seq<byte>, b: seq<byte>, c: seq<byte>)
    requires d.segment == []
    requires |a| == 4000 && |b| == 4000 && |c| == 2000
    ensures var d' := Receive(d, Deltas([a, b, c]) + [Event(AUDIO_DONE, None)]);
      && |d'.playback| == |d.playback| + 10000
      && |d'.saved| == |d.saved| + 1
      && |d'.saved[|d.saved|].data| == 10000
  {
    SegmentBoundary(d, [a, b, c]);
    assert [a, b, c][1..] == [b, c] && [b, c][1..] == [c] && [c][1..] == [];
    assert Concat([c]) == c + Concat([]);
    assert Concat([b, c]) == b + Concat([c]);
    assert Concat([a, b, c]) == a + Concat([b, c]);
  }

  /** The bookkeeping invariant survives every iteration, hence the whole loop. */
  lemma DispatchKeepsNumbered(d: Downlink, m: Inbound)
    requires Numbered(d)
    ensures Numbered(Dispatch(d, m))
  {
  }

  lemma {:induction false} ReceiveKeepsNumbered(d: Downlink, inbox: seq<Inbound>)
    requires Numbered(d)
    ensures Numbered(Receive(d, inbox))
    decreases |inbox|
  {
    if inbox != [] && !Ends(inbox[0]) {
      DispatchKeepsNumbered(d, inbox[0]);
      ReceiveKeepsNumbered(Dispatch(d, inbox[0]), inbox[1..]);
    }
  }

  /** Consistent bookkeeping means no two saved responses share a file. */
  lemma SavedNamesDistinct(d: Downlink, i: nat, j: nat)
    requires Numbered(d)
    requires i < j < |d.saved|
    ensures d.saved[i].name != d.saved[j].name
  {
    ResponseFileNamesDistinct(i, j);
  }

  /**
   * As written, the loop never records, saves or accumulates a response,
   * whatever it receives; playback still gets every delta.
   */
  lemma {:induction false} AsWrittenNeverSaves(d: Downlink, inbox: seq<Inbound>)
    ensures var d' := ReceiveAsWritten(d, inbox);
      && d'.saved == d.saved && d'.counter == d.counter
      && d'.responses == d.responses && d'.segment == d.segment
      && d'.playback == Receive(d, inbox).playback
    decreases |inbox|
  {
    if inbox != [] && !Ends(inbox[0]) {
      AsWrittenNeverSaves(DispatchAsWritten(d, inbox[0]), inbox[1..]);
    }
  }

  /** The input that shows it: one delta and one done save a file as intended and none as written. */
  lemma AsWrittenLosesResponse(d: Downlink)
    requires d.segment == []
    ensures var inbox := [Event(AUDIO_DELTA, Some([7])), Event(AUDIO_DONE, None)];
      && |Receive(d, inbox).saved| == |d.saved| + 1
      && |ReceiveAsWritten(d, inbox).saved| == |d.saved|
  {
    var inbox := [Event(AUDIO_DELTA, Some([7 as byte])), Event(AUDIO_DONE, None)];
    assert inbox == Deltas([[7]]) + [Event(AUDIO_DONE, None)];
    SegmentBoundary(d, [[7]]);
    AsWrittenNeverSaves(d, inbox);
  }
}
