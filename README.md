# A verified model of the event visualiser's queue and data stream

The visualiser logs in to an automation API and subscribes to its event
stream. A background producer forwards every streamed item over a channel.
The render loop polls that channel once per frame, turns each decoded
payload into a line of drifting text, and keeps at most twenty such events
on screen. This project models the two pieces of sequential logic inside
that, and proves what they promise:

- `event_queue.dfy` (module `EventQueue`, from `src/main.rs`). It holds
  `Event::new`'s arithmetic for the display length and the starting
  position, `Event::step`, and the `EventList` class. Its `AddEvent`
  appends while there is room. Its `Update` is the index-driven loop that
  removes out-of-band events in place and steps the others.
  - `Update` is proved against the value-level function `Tick`.
  - `Tick` is tied by lemmas to an independent index-based description,
    `BandIndices`.
- `data_stream.dfy` (module `DataStream`, from `src/data.rs`). It holds
  the `DataStreamer` class: the channel buffer, the producer's liveness and
  the `stop` flag, with `next` and `Drop::drop` as its methods. The
  module also provides the token lookup in the login response and URL
  formation as functions, and the producer's forwarding loop, proved
  against the function `Forwarding`.
- `json.dfy` (module `Json`) holds the JSON value. Its indexing rule is
  that of serde_json: a missing key, an out-of-range index or a value of
  the wrong kind yields `Null`.
- `wrappers.dfy` holds `Option` and `Result`.

Units: coordinates, velocities and the window rectangle are integers in
hundredths of a pixel. The source's velocity is `(draw / 100) * 15`
pixels; in these units it is exactly `15 * draw`. The band margin of 1500
pixels is `VARIATION` = 150000 units.

Random draws are parameters whose allowed ranges are preconditions: the
display length, the vertical velocity and the horizontal start. The JSON
parser (`string -> Option<Json>`) and serialiser (`Json -> string`) are
function parameters. The login response (or the error that replaced it)
is an input. The stream's items are an input too, each paired with what
the producer observed when it arrived.

Two behaviours of the code are worth stating outright:
- The producer forwards each raw stream item unchanged, stream errors
  included, and keeps looping (`src/data.rs:94-102`). Decoding happens in
  `next` (`src/data.rs:39-40`).
- A login or token failure sends nothing. The thread function returns
  `Err`, the `unwrap` around it panics (`src/data.rs:27`), and its sender
  is dropped, so the consumer only ever sees `Disconnected`.

## Model

| member | source | states |
|---|---|---|
| EventQueue.InBand | src/main.rs:214-215 | an event is kept exactly when its y lies in the closed band from `bottom - 1500 px` to `top + 1500 px`, the negation of the strict removal test |
| EventQueue.SliceMax | src/main.rs:126-130 | the exclusive upper end of the length draw is 150 for payloads of 150 or more bytes, never above 150 and never above the payload length |
| EventQueue.ShortPayloadHasNoDraw | src/main.rs:126-131 | below 102 bytes the range `100..slice_max` is empty, so `Event::new` has no valid draw |
| EventQueue.DisplayText | src/main.rs:131-132 | the display text is a proper prefix of the serialised payload, of the drawn length, in [100, 150) |
| EventQueue.Velocity | src/main.rs:134-135 | the velocity is vertical (x is 0); its y is positive, zero or negative exactly as the draw is; it lies within ±80·15 units |
| EventQueue.StartY | src/main.rs:137-141 | an event moving up starts at `bottom - 1500 px`, any other at `top + 1500 px` |
| EventQueue.StartIsInBand | src/main.rs:137-141 | the start height is on a band edge and inside the band, so the strict removal test keeps it |
| EventQueue.NewEvent | src/main.rs:122-154 | `Event::new` keeps the payload, builds a well-formed event (vertical velocity, text of length in [100, 150)), takes x from the draw inside the window and starts on the opposite edge |
| EventQueue.Event.Step | src/main.rs:158-160 | the centre moves by exactly the velocity; payload, text and velocity are unchanged |
| EventQueue.StepKeepsWellFormed | src/main.rs:158-160 | stepping keeps an event well formed and never changes its x coordinate |
| EventQueue.BandIndices | src/main.rs:209-223 | the kept positions are valid indices, no more of them than events |
| EventQueue.BandIndicesIncreasing | src/main.rs:209-223 | the kept positions are strictly increasing, so survivors keep their relative order |
| EventQueue.BandIndicesExact | src/main.rs:214-217 | a position is kept if and only if its pre-step y is neither above `top + 1500 px` nor below `bottom - 1500 px` |
| EventQueue.BandIndicesAll | src/main.rs:209-223 | every position is kept exactly when every event is in the band |
| EventQueue.Tick | src/main.rs:209-223 | one `update` on values: never longer than the queue; with TickIndexed, BandIndicesExact and BandIndicesIncreasing, exactly the in-band events, each stepped once, in their original order |
| EventQueue.TickIndexed | src/main.rs:209-223 | the k-th event after a frame is the k-th kept event stepped once |
| EventQueue.TickLength | src/main.rs:209-223 | a frame never lengthens the queue, and keeps its length exactly when no event is out of band |
| EventQueue.TickMembers | src/main.rs:214-220 | every in-band event survives stepped; everything after the frame is a stepped in-band event, so no removed event is stepped |
| EventQueue.TickKeepsWellFormed | src/main.rs:209-223 | a frame keeps every event well formed and moves none of them sideways |
| EventQueue.NewEventSurvivesFirstTick | src/main.rs:137-141 | the next frame after an `add_event` keeps the new event (stepped once) behind the stepped survivors of the old queue |
| EventQueue.MotionlessNeverRemoved | src/main.rs:214-220 | an in-band event with zero velocity stays in the queue for any number of frames |
| EventQueue.LeavesOnNextTick | src/main.rs:214-220 | an event stepped out of the band is still present after this frame, and the next frame shortens the queue |
| EventQueue.ScanDrop | src/main.rs:214-217 | removing an out-of-band event at index `i` leaves `i` in place and extends the processed prefix by one |
| EventQueue.ScanKeep | src/main.rs:218-220 | stepping an in-band event at index `i` advances `i` and extends the processed prefix by one |
| EventQueue.ScanDone | src/main.rs:211 | when the index reaches the end, the queue is one frame of the original and again within capacity and well formed |
| EventQueue.EventList.constructor | src/main.rs:201-207 | a new list is empty |
| EventQueue.EventList.AddEvent | src/main.rs:195-199 | a full list (20 events) is left unchanged; otherwise exactly the new event is appended at the back, the others unchanged and in order; the list stays within capacity |
| EventQueue.EventList.Update | src/main.rs:209-223 | the in-place loop terminates and leaves exactly `Tick` of the old queue, within capacity and well formed |
| Json.Get | src/data.rs:85 | `v[key]` is the member when `v` is an object holding `key`, and `Null` otherwise |
| Json.At | src/data.rs:85 | `v[i]` is the element when `v` is an array longer than `i`, and `Null` otherwise |
| Json.AsStr | src/data.rs:86 | `as_str` yields text exactly for string values |
| DataStream.Decode | src/data.rs:39-41 | a stream error yields `Err` with its text; an event yields `Ok(Some(v))` exactly when its data parses to `v`, otherwise a parse error; never `Ok(None)` |
| DataStream.ErrorText | src/data.rs:39-45 | a stream error reports its own text and a disconnected channel "Channel Disconnected"; only a parse error's text (the parser's) is not given |
| DataStream.WhenEmpty | src/data.rs:43-46 | an empty channel yields `Ok(None)` while the sender lives, and otherwise the error "Channel Disconnected" |
| DataStream.Poll | src/data.rs:36-50 | with items buffered, one poll consumes exactly the front item and decodes it; an empty buffer stays empty; `Ok(None)` and `Disconnected` each happen exactly in their empty-channel state |
| DataStream.PollsInOrder | src/data.rs:36-50 | successive polls deliver buffered items one each, in the order they were sent, and then report the channel's state on every further poll |
| DataStream.ParseableInOrder | src/data.rs:38-41 | when every buffered event parses, polling as many times as there are items yields exactly their values, in wire order |
| DataStream.DataStreamer.constructor | src/data.rs:22-34 | a new streamer has an empty channel, a live producer and `stop` clear |
| DataStream.DataStreamer.Next | src/data.rs:36-50 | `next` is `Poll` on the channel's state; the flags are unchanged |
| DataStream.DataStreamer.Drop | src/data.rs:53-57 | dropping sets `stop` and changes nothing else |
| DataStream.AuthToken | src/data.rs:85-87 | the token is found exactly when `response.return[0].token` is a string, and is that string; otherwise the error is "No auth token!" |
| DataStream.LoginUrl | src/data.rs:80 | the login URL is the API address followed by `/login` |
| DataStream.EventUrl | src/data.rs:90 | the event URL is the API address, then `/events?token=`, then the token verbatim |
| DataStream.EventUrlInjective | src/data.rs:90 | for one API address, different tokens give different event URLs |
| DataStream.StreamUrl | src/data.rs:79-90 | the event stream's URL exists exactly when the login succeeded and carried a token; a failed login passes its error on; a missing token gives "No auth token!" |
| DataStream.Forwarding | src/data.rs:94-104 | the loop sends a prefix of the stream, unchanged, in order; every sent item arrived with `stop` clear and the receiver alive; it ends by the stream running out exactly when all is sent; it stops at an item seen with `stop` set, which is not sent; a failed send ends it at an item seen with the receiver gone |
| DataStream.Passes | src/data.rs:95-101 | an arrival passes both exit tests (`stop` clear, send succeeds) exactly when the loop sends it and goes on; otherwise nothing is sent and the loop ends there |
| DataStream.ForwardingExit | src/data.rs:94-104 | when the first `k` arrivals pass and the next does not, the loop sends exactly those `k` items and ends for that next arrival's reason |
| DataStream.ForwardsEverything | src/data.rs:94-102 | a stream never stopped or cut off is forwarded whole, stream errors included, and ends normally |
| DataStream.StopIsFinal | src/data.rs:95-97 | once the loop has stopped or failed, later arrivals change nothing it forwarded |
| DataStream.ForwardEvents | src/data.rs:94-104 | the loop appends exactly `Forwarding`'s items to the channel, in order, and returns its ending; the flags are unchanged |
| DataStream.StreamThread | src/data.rs:59-105 | with no event URL nothing is sent and the error is returned; with one, the stream is forwarded and only a failed send is an error; in every case the sender is dropped afterwards |
| DataStream.DeliveredInWireOrder | src/data.rs:94-104 | after the producer ends, polls yield the decoding of each forwarded item in wire order, then `Disconnected` |

## Left out

- Rendering with nannou is not modelled: `view`, `Event::draw`, `EventList::draw`, the window, fullscreen, the font, the FPS overlay and the colour constants. It is presentation and I/O. `EventList`'s colour and font fields go with it.
- Random number generation is not modelled. Each `gen_range` draw is a parameter, and its range is a precondition.
- f32 arithmetic and the constant `opacity` field are not modelled. Positions and velocities are exact integers in hundredths of a pixel.
- EventQueue.NewEvent: a serialisation shorter than 102 bytes panics in the source (`gen_range` on an empty range, or `len - 1` underflowing at 0). The model makes the valid range a precondition instead; `ShortPayloadHasNoDraw` shows no draw exists there.
- UTF-8 character-boundary panics of the byte slice `json_string[..slice_size]` are not modelled. Strings are sequences of characters.
- EventQueue.Event.Step is a function on an event value. `Update` writes its result back to the element at the index. The deque owns its events and never shares them, so nothing can observe the difference from `&mut` access.
- The frame function `update` in `src/main.rs:78-85` is not modelled. It calls `next`, then `add_event`, then `EventList::update`, and its `unwrap` panics on an error from `next`. The window rectangle is a parameter of each call.
- HTTP and TLS are not modelled: the login request, certificate handling, `.json()`, `Url::parse` failures, `env!` configuration and the event-source client. The login outcome and the stream's items are inputs. An event URL that fails to parse is not modelled.
- Threads, `JoinHandle`, atomics and interleaving are not modelled. The channel is a sequential buffer. What the producer saw of `stop` and of the receiver at each item is part of that item's arrival.
- serde_json parsing and serialisation are function parameters, so their internals are not modelled. JSON numbers are integers. A parse error's message text is not modelled.
- `dbg!` output is not modelled, nor the panic of `unwrap` in the thread closure (`src/data.rs:27`). Its effect on the channel is modelled: the sender is dropped.

