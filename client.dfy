/**
 * The realtime voice client's shared state, made explicit: one object holds
 * what the source keeps in module globals, and each device callback or loop
 * iteration is one method, run atomically.
 *
 * Ghost bookkeeping states the ordering guarantees: every frame the gate
 * accepted is either already taken by the uplink or still queued, in capture
 * order; every byte received for playback is either already played or still
 * buffered, in arrival order; and the saved responses are numbered by the
 * counter.
 *
 * The receive step models the intended segment handling (see module
 * Downlink); the code as written never accumulates or saves a segment.
 */
module RealtimeClient {
  import opened Audio
  import opened Wrappers
  import opened MicGate
  import opened Playback
  import opened ResponseFiles
  import opened Downlink

  /** An `input_audio_buffer.append` message carrying one frame (before encoding). */
  datatype Outbound = InputAudioBufferAppend(audio: Frame)

  /** What `ws.send` did with one message. */
  datatype SendResult = Sent | Closed | SendFailed

  /**
   * How many frames the uplink loop takes when `available` are queued and
   * the successive sends report `results`: it stops when the queue is empty,
   * when the results run out (the stop event) or after a send reports the
   * connection closed.
   */
  function SendsMade(available: nat, results: seq<SendResult>): (k: nat)
    ensures k <= available && k <= |results|
    ensures forall i | 0 <= i < k - 1 :: results[i] != Closed
    ensures k == available || k == |results| || (k > 0 && results[k - 1] == Closed)
    decreases available
  {
    if available == 0 || results == [] then 0
    else if results[0] == Closed then 1
    else 1 + SendsMade(available - 1, results[1..])
  }

  class Client {
    var audioBuffer: seq<byte>
    var micQueue: seq<Frame>
    var micOnAt: int                      // milliseconds
    var micActive: MicActivity
    var currentResponseBuffer: seq<byte>
    var responseAudioBuffers: seq<seq<byte>>
    var responseCounter: nat
    var saved: seq<Artifact>

    ghost var accepted: seq<Frame>        // frames the gate let through, in capture order
    ghost var dequeued: seq<Frame>        // frames the uplink has taken, in order
    ghost var received: seq<byte>         // audio appended for playback, in arrival order
    ghost var played: seq<byte>           // real audio handed to the output device

    ghost predicate Valid()
      reads this
    {
      && dequeued + micQueue == accepted
      && played + audioBuffer == received
      && Numbered(Receiver())
    }

    /** The part of the state the receive loop works on. */
    function Receiver(): Downlink
      reads this
    {
      Downlink(audioBuffer, currentResponseBuffer, responseAudioBuffers, responseCounter, saved)
    }

    /** The module-level initial values. */
    constructor ()
      ensures Valid()
      ensures audioBuffer == [] && micQueue == [] && micOnAt == 0 && micActive == Unknown
      ensures currentResponseBuffer == [] && responseAudioBuffers == [] && responseCounter == 0
      ensures saved == []
      ensures accepted == [] && dequeued == [] && received == [] && played == []
    {
      audioBuffer, micQueue, micOnAt, micActive := [], [], 0, Unknown;
      currentResponseBuffer, responseAudioBuffers, responseCounter, saved := [], [], 0, [];
      accepted, dequeued, received, played := [], [], [], [];
    }

    /**
     * `mic_callback`: a frame captured at `now` joins the back of the queue
     * only when the gate is open, and is dropped otherwise.
     */
    method MicCallback(inData: Frame, now: int)
      requires Valid()
      modifies this`micQueue, this`micActive, this`accepted
      ensures Valid()
      ensures MicOpen(now, micOnAt) ==>
        && micQueue == old(micQueue) + [inData]
        && accepted == old(accepted) + [inData]
        && micActive == Active
      ensures !MicOpen(now, micOnAt) ==>
        && micQueue == old(micQueue)
        && accepted == old(accepted)
        && micActive == Suppressed
    {
      if now > micOnAt {
        if micActive != Active {
          micActive := Active;
        }
        micQueue := micQueue + [inData];
        accepted := accepted + [inData];
      } else {
        if micActive != Suppressed {
          micActive := Suppressed;
        }
      }
    }

    /**
     * One iteration of the uplink loop: when a frame is queued, take the
     * front one and send it. `proceed` is false only when the send found the
     * connection closed; a failed send drops the frame and the loop goes on.
     */
    method UplinkStep(result: SendResult) returns (message: Option<Outbound>, proceed: bool)
      requires Valid()
      modifies this`micQueue, this`dequeued
      ensures Valid()
      ensures old(micQueue) == [] ==> message == None && micQueue == [] && dequeued == old(dequeued) && proceed
      ensures old(micQueue) != [] ==>
        && message == Some(InputAudioBufferAppend(old(micQueue)[0]))
        && micQueue == old(micQueue)[1..]
        && dequeued == old(dequeued) + [old(micQueue)[0]]
        && (proceed <==> result != Closed)
    {
      if micQueue != [] {
        var chunk := micQueue[0];
        micQueue := micQueue[1..];
        dequeued := dequeued + [chunk];
        assert dequeued + micQueue == old(dequeued) + old(micQueue);
        message := Some(InputAudioBufferAppend(chunk));
        proceed := result != Closed;
      } else {
        message := None;
        proceed := true;
      }
    }

    /**
     * The uplink loop while no frame is captured: the messages handed to
     * `ws.send` (delivered, failed or refused by a closed connection) carry
     * the front of the queue, in order, and what is left is the rest of it.
     * `closed` tells whether the loop ended on a closed connection.
     */
    method UplinkLoop(results: seq<SendResult>) returns (messages: seq<Outbound>, closed: bool)
      requires Valid()
      modifies this`micQueue, this`dequeued
      ensures Valid()
      ensures var k := SendsMade(|old(micQueue)|, results);
        && |messages| == k
        && (forall j | 0 <= j < k :: messages[j] == InputAudioBufferAppend(old(micQueue)[j]))
        && micQueue == old(micQueue)[k..]
        && dequeued == old(dequeued) + old(micQueue)[..k]
        && (closed <==> k > 0 && results[k - 1] == Closed)
    {
      messages := [];
      var i := 0;
      var proceed := true;
      while i < |results| && micQueue != [] && proceed
        invariant 0 <= i <= |old(micQueue)| && i <= |results|
        invariant Valid()
        invariant micQueue == old(micQueue)[i..]
        invariant dequeued == old(dequeued) + old(micQueue)[..i]
        invariant |messages| == i
        invariant forall j | 0 <= j < i :: messages[j] == InputAudioBufferAppend(old(micQueue)[j])
        invariant proceed ==> SendsMade(|old(micQueue)|, results) == i + SendsMade(|old(micQueue)| - i, results[i..])
        invariant proceed ==> i == 0 || results[i - 1] != Closed
        invariant !proceed ==> SendsMade(|old(micQueue)|, results) == i && i > 0 && results[i - 1] == Closed
      {
        var message, p := UplinkStep(results[i]);
        assert results[i..][1..] == results[i + 1..];
        assert old(micQueue)[..i + 1] == old(micQueue)[..i] + [old(micQueue)[i]];
        messages := messages + [message.value];
        i := i + 1;
        proceed := p;
      }
      closed := !proceed;
    }

    /**
     * `spkr_callback`: hand the device `frameCount` samples. A full chunk of
     * buffered audio re-arms the mic gate; an underrun plays what is left,
     * pads it with silence and leaves the gate alone.
     */
    method SpeakerCallback(frameCount: nat, now: int) returns (chunk: seq<byte>)
      requires Valid()
      modifies this`audioBuffer, this`micOnAt, this`played
      ensures Valid()
      ensures |chunk| == frameCount * BYTES_PER_SAMPLE
      ensures var t := Drain(old(audioBuffer), frameCount * BYTES_PER_SAMPLE);
        && chunk == t.chunk
        && audioBuffer == t.rest
        && micOnAt == (if t.rearm then Rearm(now) else old(micOnAt))
      ensures played == old(played) + Played(old(audioBuffer), frameCount * BYTES_PER_SAMPLE)
    {
      var needed := frameCount * BYTES_PER_SAMPLE;
      var size := |audioBuffer|;
      if size >= needed {
        chunk := audioBuffer[..needed];
        played := played + chunk;
        audioBuffer := audioBuffer[needed..];
        micOnAt := now + REENGAGE_DELAY_MS;
      } else {
        chunk := audioBuffer + Silence(needed - size);
        played := played + audioBuffer;
        audioBuffer := [];
      }
    }

    /**
     * `save_response_audio`, without the WAV encoding: the file is named by
     * the counter before it is incremented. It is an internal step of
     * `ReceiveStep`, called right after the response was recorded, so it
     * neither needs nor restores `Valid()` on its own; its frame leaves the
     * queue and playback bookkeeping untouched.
     */
    method SaveResponseAudio(data: seq<byte>) returns (filename: string)
      modifies this`responseCounter, this`saved
      ensures filename == ResponseFileName(old(responseCounter))
      ensures responseCounter == old(responseCounter) + 1
      ensures saved == old(saved) + [Artifact(filename, data)]
    {
      filename := ResponseFileName(responseCounter);
      responseCounter := responseCounter + 1;
      saved := saved + [Artifact(filename, data)];
    }

    /** One iteration of the receive loop; `proceed` is false when the loop ends. */
    method ReceiveStep(m: Inbound) returns (proceed: bool)
      requires Valid()
      modifies this`audioBuffer, this`currentResponseBuffer, this`responseAudioBuffers
      modifies this`responseCounter, this`saved, this`received
      ensures Valid()
      ensures Receiver() == Dispatch(old(Receiver()), m)
      ensures received == old(received) + Payload(m)
      ensures proceed <==> !Ends(m)
    {
      ghost var before := Receiver();
      match m {
        case ConnectionClosed =>
          proceed := false;
        case EmptyMessage =>
          proceed := false;
        case Unparseable =>
          proceed := true;
        case Event(kind, delta) =>
          proceed := true;
          if kind == AUDIO_DELTA {
            if delta.Some? {
              audioBuffer := audioBuffer + delta.value;
              received := received + delta.value;
              currentResponseBuffer := currentResponseBuffer + delta.value;
            }
          } else if kind == AUDIO_DONE {
            responseAudioBuffers := responseAudioBuffers + [currentResponseBuffer];
            var _ := SaveResponseAudio(currentResponseBuffer);
            currentResponseBuffer := [];
          }
      }
      DispatchKeepsNumbered(before, m);
    }

    /**
     * The receive loop over the messages `inbox` delivers while no playback
     * tick runs: it reads up to and including the first message that ends
     * it, and playback gets exactly the payloads read, in order.
     */
    method ReceiveLoop(inbox: seq<Inbound>) returns (read: nat)
      requires Valid()
      modifies this`audioBuffer, this`currentResponseBuffer, this`responseAudioBuffers
      modifies this`responseCounter, this`saved, this`received
      ensures Valid()
      ensures Receiver() == Receive(old(Receiver()), inbox)
      ensures read == Read(inbox)
      ensures audioBuffer == old(audioBuffer) + Delivered(inbox)
      ensures received == old(received) + Delivered(inbox)
    {
      read := 0;
      var proceed := true;
      while read < |inbox| && proceed
        invariant 0 <= read <= |inbox|
        invariant Valid()
        invariant played == old(played)
        invariant proceed ==> Receive(Receiver(), inbox[read..]) == Receive(old(Receiver()), inbox)
        invariant proceed ==> Read(inbox) == read + Read(inbox[read..])
        invariant !proceed ==> Receiver() == Receive(old(Receiver()), inbox) && read == Read(inbox)
      {
        proceed := ReceiveStep(inbox[read]);
        assert inbox[read..][1..] == inbox[read + 1..];
        read := read + 1;
      }
    }
  }
}
