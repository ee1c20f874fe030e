# Realtime voice client: duplex audio core

A Dafny model of the sequential core of `legacy/realtime-simple.py`, a
full-duplex voice client that streams microphone audio to a realtime speech
service over a WebSocket and plays back the audio the service streams in
return. The module-level globals of the source (`audio_buffer`, `mic_queue`,
`mic_on_at`, `mic_active`, `current_response_buffer`,
`response_audio_buffers`, `response_counter`) become the fields of one
`Client` object, and every device callback or loop iteration is one method
on it, taken as an atomic step:

- `SpeakerCallback` (`spkr_callback`): drains `frame_count * 2` bytes from
  the front of the playback buffer; a full chunk re-arms the mic gate to
  `now + 500` ms, an underrun plays what is left, pads it with zero bytes
  and leaves the gate alone.
- `MicCallback` (`mic_callback`): a frame captured strictly after
  `mic_on_at` joins the back of the mic queue, otherwise it is dropped;
  `mic_active` tracks which happened last.
- `UplinkStep` / `UplinkLoop` (`send_mic_audio_to_websocket`): take the
  front frame and send it as an `input_audio_buffer.append` message; a
  closed connection ends the loop, any other send error drops the frame.
- `ReceiveStep` / `ReceiveLoop` (`receive_audio_from_websocket`): an empty
  message or a closed connection ends the loop; `response.audio.delta`
  appends its decoded bytes to the playback buffer and the segment
  accumulator; `response.audio.done` records the segment, saves it as
  `response_{n}.wav` with `n` the counter before it is incremented, and
  resets the accumulator; any other event type, an undecodable delta and an
  unparseable message change nothing and the loop goes on.

Ghost fields of `Client` state the ordering guarantees as an object
invariant kept by every callback and loop-step method: the frames the
uplink has taken followed by the frames still queued are exactly the frames
the gate accepted, in capture order; the bytes already played followed by
the playback buffer are exactly the bytes received, in arrival order; and
saved file `i` is named `response_i.wav` and holds recorded response `i`.
`SaveResponseAudio` is an internal step of `ReceiveStep` and is not one of
these methods. On its own it leaves the queue and playback untouched, but it
does not keep the response bookkeeping, because it adds a file without
recording a response. As in the source, that part holds only across a
whole receive step.

Modules: `Audio` (bytes, frames, silence), `Playback` (one playback tick as
a function), `MicGate` (the gate and its deadline), `ResponseFiles` (file
names and their decimal counter), `Downlink` (inbound events, one receive
iteration as a function, the loop as a fold, and the lemmas about them),
`RealtimeClient` (the state object and its step methods), `Wrappers`
(`Option`).

Time is an integer number of milliseconds. The mic gate compares strictly
(`now > mic_on_at`), as the code does, so a frame captured exactly at the
deadline is still dropped; a gate that opened at the deadline itself would
compare `now >= mic_on_at`. The gate is re-armed only on a tick that plays a
full chunk of real audio, not on an underrun tick that still plays some
real bytes; the model keeps that too.

The receive loop in the source assigns `current_response_buffer` without a
`global` declaration, so the name is local to the whole function and every
use of it raises `UnboundLocalError`, which the loop's handler swallows
(see Findings). The `Client` models the evident intent stated next to that
code; `Downlink.DispatchAsWritten` and `Downlink.ReceiveAsWritten` model the
code as it runs.

## Model

| member | source | states |
|---|---|---|
| Audio.Silence | legacy/realtime-simple.py:118 | the padding is exactly the requested number of zero bytes |
| Playback.Drain | legacy/realtime-simple.py:107-121 | the chunk is exactly `needed` bytes; its real audio followed by what stays buffered is the old buffer; everything after the real audio is zero; the gate is re-armed iff the buffer held at least `needed` bytes, and an underrun empties the buffer |
| Playback.Played | legacy/realtime-simple.py:113-119 | the real audio a tick plays, followed by the remaining buffer, is the old buffer, and is at most one chunk |
| MicGate.Rearm | legacy/realtime-simple.py:113-116 | after a full chunk played at `now`, a capture at `t` is kept iff `t > now + 500` |
| ResponseFiles.Decimal | legacy/realtime-simple.py:58 | the counter prints as a non-empty string of decimal digits with no leading zero, and a counter below 10 as a single digit |
| ResponseFiles.DecimalRoundTrip | legacy/realtime-simple.py:58 | reading the printed counter back gives the counter |
| ResponseFiles.ResponseFileName | legacy/realtime-simple.py:58 | the name starts with `response_` and ends with `.wav` |
| ResponseFiles.ResponseFileNameRoundTrip | legacy/realtime-simple.py:58 | the counter can be read back from the file name |
| ResponseFiles.ResponseFileNamesDistinct | legacy/realtime-simple.py:55-59 | different counter values give different file names |
| Downlink.Save | legacy/realtime-simple.py:55-59 | saving names the file by the old counter, appends exactly one file and increments the counter, touching nothing else |
| Downlink.Dispatch | legacy/realtime-simple.py:140-152 | playback grows at its end by the message's payload only; done records the segment, saves it under the current counter, increments the counter and empties the accumulator; a delta extends the accumulator; a message with no payload that is not done changes nothing |
| Downlink.DispatchAsWritten | legacy/realtime-simple.py:140-152 | as the code runs: playback grows by the delta payload and nothing else ever changes |
| Downlink.Receive | legacy/realtime-simple.py:128-159 | the intended receive loop over the delivered messages, up to the first one that ends it: playback becomes the old buffer followed by all payloads read, in arrival order |
| Downlink.ReceiveAsWritten | legacy/realtime-simple.py:128-159 | the receive loop as the code runs: playback still becomes the old buffer followed by all payloads read, in arrival order |
| Downlink.ReceiveSkipsInert | legacy/realtime-simple.py:136-159 | an unparseable message or an unrecognised event type changes nothing and the loop reads on |
| Downlink.ReceiveStopsAtEnd | legacy/realtime-simple.py:130-157 | an empty message or a closed connection ends the loop after one read with nothing changed |
| Downlink.ReceiveDeltas | legacy/realtime-simple.py:140-143 | a run of deltas appends their concatenation to both playback and the accumulator |
| Downlink.SegmentBoundary | legacy/realtime-simple.py:140-152 | deltas then one done, from an empty accumulator, save exactly one file named by the counter holding all payloads in order, record it, and leave the accumulator empty |
| Downlink.ThreeDeltasOneResponse | legacy/realtime-simple.py:140-152 | deltas of 4000, 4000 and 2000 bytes then done grow playback by 10000 bytes and save one 10000-byte file |
| Downlink.DispatchKeepsNumbered | legacy/realtime-simple.py:146-152 | one iteration keeps file `i` named `response_i.wav` holding recorded response `i`, with the counter equal to the number of files |
| Downlink.ReceiveKeepsNumbered | legacy/realtime-simple.py:128-152 | the whole loop keeps that bookkeeping |
| Downlink.SavedNamesDistinct | legacy/realtime-simple.py:55-59 | with that bookkeeping no two saved responses share a file name |
| Downlink.AsWrittenNeverSaves | legacy/realtime-simple.py:124-159 | as written, the loop never accumulates, records or saves a response, while playback gets the same bytes as intended |
| Downlink.AsWrittenLosesResponse | legacy/realtime-simple.py:143-152 | one delta and one done save a file as intended and none as written |
| RealtimeClient.SendsMade | legacy/realtime-simple.py:88-98 | the uplink loop sends no more frames than are queued or than it has iterations for, no send before the last one found the connection closed, and it stops only when the queue is empty, the iterations run out or the last send found the connection closed |
| RealtimeClient.Client.constructor | legacy/realtime-simple.py:18-50 | the state starts empty, with the gate deadline at 0 and `mic_active` unknown |
| RealtimeClient.Client.MicCallback | legacy/realtime-simple.py:70-83 | a frame captured strictly after the deadline is appended at the back of the queue and the mic is active; otherwise the queue is unchanged and the mic is suppressed; FIFO bookkeeping is kept |
| RealtimeClient.Client.UplinkStep | legacy/realtime-simple.py:88-100 | pops only from a non-empty queue, always the front frame, sends it, and stops only on a closed connection; sent frames followed by the queue still equal the accepted frames |
| RealtimeClient.Client.UplinkLoop | legacy/realtime-simple.py:86-104 | the messages handed to `ws.send` (delivered, failed or refused by a closed connection) are the front of the queue in order, the queue keeps the rest, and the loop ends closed iff the last send found the connection closed |
| RealtimeClient.Client.SpeakerCallback | legacy/realtime-simple.py:107-121 | the chunk, the new buffer and the new gate deadline are those of one playback tick; played bytes followed by the buffer still equal the received bytes |
| RealtimeClient.Client.SaveResponseAudio | legacy/realtime-simple.py:55-59 | the file is named by the old counter, the counter is incremented and one file with the data is added |
| RealtimeClient.Client.ReceiveStep | legacy/realtime-simple.py:127-159 | the state after one message is that of one receive iteration; the loop stops iff the message ends it; the bookkeeping invariants are kept |
| RealtimeClient.Client.ReceiveLoop | legacy/realtime-simple.py:124-163 | the loop reads up to and including the first ending message, ends in the state of the receive fold, and appends exactly the payloads read to playback |

## Left out

- Audio device streams: opening, starting, stopping and closing the PyAudio streams and the main wait loop (legacy/realtime-simple.py:210-251) are device I/O.
- The connection: connecting, the initial `response.create` message, thread start and join, the stop event polling and the close frame (legacy/realtime-simple.py:166-207) are network I/O and concurrency. Each callback and loop iteration is one atomic step; `UplinkLoop` and `ReceiveLoop` describe runs in which no other step interleaves, and the stop event is modelled by the number of send results or messages supplied.
- Concurrency itself: interleavings are covered only as sequences of atomic steps on one object; locking and data races are not modelled. In the source the playback buffer has no lock: `spkr_callback` rebinds a sliced copy (line 115) or copies and then clears the buffer (lines 118-119) while the receive thread extends it (line 142), so bytes appended in between can be lost. The invariant `played + audioBuffer == received` holds only under the atomic-step assumption.
- Stream configuration: `CHUNK_SIZE` (1024) and `RATE` (24000) only configure the device streams; the playback tick takes the device's `frame_count` as a parameter instead.
- Encoding: base64 and JSON (legacy/realtime-simple.py:92-93, 136-141) are library calls. Inbound messages arrive already parsed, with the delta already decoded (`None` when decoding fails); outbound messages carry the raw frame.
- The WAV file itself (legacy/realtime-simple.py:61-65): a save is recorded as a file name and its bytes; the WAV header, and a write that fails after the counter was incremented, are not modelled.
- Logging, the console clear, the API key and the prompt text (legacy/realtime-simple.py:1-41) carry no behaviour; `mic_active` keeps its value but the log lines it triggers are not modelled.
- Wall-clock time: `time.time()` seconds as a float become integer milliseconds passed to each callback.
- The uplink loop busy-waits while the queue is empty; `UplinkLoop` stops there instead, since such iterations change nothing.
- The outer exception handlers of both loops (legacy/realtime-simple.py:101-102, 160-161) are not reached by anything in the modelled loop bodies.

## Findings

| source | as written | input that shows it | evidently intended | confidence | as-written member | corrected member |
|---|---|---|---|---|---|---|
| legacy/realtime-simple.py:152 | the assignment makes `current_response_buffer` local to the receive function, so lines 143 and 150 raise `UnboundLocalError`, which the loop's handler swallows: playback gets the audio but no response is ever accumulated, recorded or saved | a `response.audio.delta` event followed by a `response.audio.done` event | the segment is accumulated, recorded, saved as `response_{n}.wav` and reset, as the comments at lines 149-152 say | not executed; high (follows from Python's scoping rules) | Downlink.AsWrittenLosesResponse | Downlink.SegmentBoundary |
