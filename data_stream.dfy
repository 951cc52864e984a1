/**
 * The data side of the visualiser (src/data.rs): a producer thread logs in
 * to the event API, opens its event stream and forwards every item it
 * receives over a channel; the render loop polls that channel once per
 * frame through `DataStreamer::next`.
 *
 * Threads, the network and the JSON parser are abstracted: the channel is
 * a sequential buffer with a flag for the producer's end, the parser is a
 * function parameter, the login response and the stream's arrivals are
 * inputs, and what the producer observes of the shared `stop` flag and of
 * the consumer's end at each arrival is part of each arrival.
 */
module DataStream {
  import opened Wrappers
  import opened Json

  /** An item of the event stream: an event's `data`, or a stream error's text. */
  datatype StreamItem = Received(data: string) | StreamFailure(message: string)

  /** Why `next` failed. */
  datatype PollError =
    | StreamError(message: string)   // a buffered stream error, passed on as its text
    | ParseError(data: string)       // a buffered event whose data is not JSON
    | Disconnected                   // empty channel whose producer has gone

  /** The text of the error `next` reports for a disconnected channel. */
  const CHANNEL_DISCONNECTED: string := "Channel Disconnected"

  /** The error the producer reports when the login response carries no token. */
  const NO_AUTH_TOKEN: string := "No auth token!"

  /** The text of the error a send on a channel whose receiver has gone reports. */
  const SEND_FAILED: string := "sending on a closed channel"

  /** The message of an error `next` returns; the parser's own messages are not modelled. */
  function ErrorText(e: PollError): (r: Option<string>)
    ensures r.None? <==> e.ParseError?
    ensures e.StreamError? ==> r == Some(e.message)
    ensures e.Disconnected? ==> r == Some(CHANNEL_DISCONNECTED)
  {
    match e
    case StreamError(message) => Some(message)
    case ParseError(_) => None
    case Disconnected => Some(CHANNEL_DISCONNECTED)
  }

  // ---------------------------------------------------------------------
  // The consumer: `DataStreamer::next`
  // ---------------------------------------------------------------------

  type PollResult = Result<Option<Json>, PollError>

  /**
   * What `next` makes of one received item: a stream error stays an error,
   * an event yields its parsed data, or an error when the data does not
   * parse. A received item never yields `Ok(None)`.
   */
  function Decode(item: StreamItem, parse: string -> Option<Json>): (r: PollResult)
    ensures r.Ok? <==> item.Received? && parse(item.data).Some?
    ensures r.Ok? ==> r.value == Some(parse(item.data).value)
    ensures item.StreamFailure? ==> r == Err(StreamError(item.message))
    ensures item.Received? && parse(item.data).None? ==> r == Err(ParseError(item.data))
  {
    match item
    case StreamFailure(message) => Err(StreamError(message))
    case Received(data) =>
      match parse(data)
      case Some(v) => Ok(Some(v))
      case None => Err(ParseError(data))
  }

  /** What `next` reports for an empty channel. */
  function WhenEmpty(senderAlive: bool): (r: PollResult)
    ensures r.Ok? <==> senderAlive
    ensures r.Ok? ==> r.value.None?
    ensures r.Err? ==> r.error == Disconnected && ErrorText(r.error) == Some(CHANNEL_DISCONNECTED)
  {
    if senderAlive then Ok(None) else Err(Disconnected)
  }

  /**
   * One `try_recv` and its interpretation: the result of the poll and the
   * buffer left behind. Buffered items are delivered, front first, even
   * after the producer has gone; only an empty channel reports its state.
   */
  function Poll(buffer: seq<StreamItem>, senderAlive: bool, parse: string -> Option<Json>): (r: (PollResult, seq<StreamItem>))
    ensures buffer == [] ==> r.1 == [] && r.0 == WhenEmpty(senderAlive)
    ensures buffer != [] ==> r.1 == buffer[1..] && r.0 == Decode(buffer[0], parse)
    ensures (r.0.Ok? && r.0.value.None?) <==> buffer == [] && senderAlive
    ensures (r.0.Err? && r.0.error.Disconnected?) <==> buffer == [] && !senderAlive
    ensures forall v :: r.0 == Ok(Some(v)) <==> buffer != [] && buffer[0].Received? && parse(buffer[0].data) == Some(v)
  {
    if buffer == [] then (WhenEmpty(senderAlive), buffer)
    else (Decode(buffer[0], parse), buffer[1..])
  }

  /** `n` consecutive polls with nothing sent in between: their results, and the buffer left. */
  function Polls(buffer: seq<StreamItem>, senderAlive: bool, parse: string -> Option<Json>, n: nat): (seq<PollResult>, seq<StreamItem>)
    decreases n
  {
    if n == 0 then ([], buffer)
    else
      var (first, rest) := Poll(buffer, senderAlive, parse);
      var (more, left) := Polls(rest, senderAlive, parse, n - 1);
      ([first] + more, left)
  }

  /**
   * Successive polls hand out the buffered items in the order they were
   * sent, one per poll, and once the buffer is drained every further poll
   * reports the channel's state (`Ok(None)`, or `Disconnected` for a
   * producer that has gone).
   */
  lemma {:induction false} PollsInOrder(buffer: seq<StreamItem>, senderAlive: bool, parse: string -> Option<Json>, n: nat)
    ensures |Polls(buffer, senderAlive, parse, n).0| == n
    ensures n <= |buffer| ==> Polls(buffer, senderAlive, parse, n).1 == buffer[n..]
    ensures n >= |buffer| ==> Polls(buffer, senderAlive, parse, n).1 == []
    ensures forall k :: 0 <= k < n && k < |buffer| ==> Polls(buffer, senderAlive, parse, n).0[k] == Decode(buffer[k], parse)
    ensures forall k :: |buffer| <= k < n ==> Polls(buffer, senderAlive, parse, n).0[k] == WhenEmpty(senderAlive)
    decreases n
  {
    if n > 0 {
      var (first, rest) := Poll(buffer, senderAlive, parse);
      PollsInOrder(rest, senderAlive, parse, n - 1);
      var more := Polls(rest, senderAlive, parse, n - 1).0;
      var all := Polls(buffer, senderAlive, parse, n).0;
      assert all == [first] + more;
      if buffer != [] {
        assert forall k :: 1 <= k < n && k < |buffer| ==> buffer[k] == rest[k - 1];
        if n <= |buffer| {
          assert rest[n - 1..] == buffer[n..];
        }
      }
    }
  }

  /** When every buffered event parses, the polls yield exactly their values, in wire order. */
  lemma ParseableInOrder(buffer: seq<StreamItem>, senderAlive: bool, parse: string -> Option<Json>)
    requires forall k :: 0 <= k < |buffer| ==> buffer[k].Received? && parse(buffer[k].data).Some?
    ensures |Polls(buffer, senderAlive, parse, |buffer|).0| == |buffer|
    ensures forall k :: 0 <= k < |buffer| ==>
      Polls(buffer, senderAlive, parse, |buffer|).0[k] == Ok(Some(parse(buffer[k].data).value))
  {
    PollsInOrder(buffer, senderAlive, parse, |buffer|);
  }

  /**
   * `DataStreamer`: the receiving end of the channel together with the
   * shared `stop` flag. `senderAlive` is false once the producer thread has
   * returned, which drops its sender.
   */
  class DataStreamer {
    var buffer: seq<StreamItem>
    var senderAlive: bool
    var stop: bool

    /** `DataStreamer::new`: an empty channel, a running producer, `stop` clear. */
    constructor ()
      ensures buffer == [] && senderAlive && !stop
    {
      buffer := [];
      senderAlive := true;
      stop := false;
    }

    /** `DataStreamer::next`: takes at most the front item and reports on it, or on the empty channel. */
    method Next(parse: string -> Option<Json>) returns (r: PollResult)
      modifies this
      ensures (r, buffer) == Poll(old(buffer), old(senderAlive), parse)
      ensures old(buffer) == [] ==> buffer == []
      ensures old(buffer) != [] ==> buffer == old(buffer)[1..]
      ensures senderAlive == old(senderAlive) && stop == old(stop)
    {
      if buffer == [] {
        r := WhenEmpty(senderAlive);
      } else {
        var item := buffer[0];
        buffer := buffer[1..];
        r := Decode(item, parse);
      }
    }

    /** `Drop::drop`: raises `stop`; nothing else changes, and nothing ever lowers it again. */
    method Drop()
      modifies this
      ensures stop
      ensures buffer == old(buffer) && senderAlive == old(senderAlive)
    {
      stop := true;
    }
  }

  // ---------------------------------------------------------------------
  // The producer: `create_data_stream_thread`
  // ---------------------------------------------------------------------

  /**
   * The token in a login response, found as `response["return"][0]["token"]`
   * under the library's indexing rules, or the error for a response that
   * does not carry one as a string there.
   */
  function AuthToken(response: Json): (r: Result<string, string>)
    ensures r.Ok? <==>
      response.Object? && "return" in response.members
      && response.members["return"].Array? && |response.members["return"].elements| > 0
      && response.members["return"].elements[0].Object?
      && "token" in response.members["return"].elements[0].members
      && response.members["return"].elements[0].members["token"].String?
    ensures r.Ok? ==> response.members["return"].elements[0].members["token"] == String(r.value)
    ensures r.Err? ==> r.error == NO_AUTH_TOKEN
  {
    match AsStr(Get(At(Get(response, "return"), 0), "token"))
    case Some(token) => Ok(token)
    case None => Err(NO_AUTH_TOKEN)
  }

  /** The login endpoint: the API address followed by `/login`. */
  function LoginUrl(apiUrl: string): (r: string)
    ensures |r| == |apiUrl| + 6
    ensures r[..|apiUrl|] == apiUrl && r[|apiUrl|..] == "/login"
  {
    apiUrl + "/login"
  }

  const EVENTS_QUERY: string := "/events?token="

  /** The event stream: the API address, `/events?token=` and the token verbatim. */
  function EventUrl(apiUrl: string, token: string): (r: string)
    ensures |r| == |apiUrl| + |EVENTS_QUERY| + |token|
    ensures r[..|apiUrl|] == apiUrl
    ensures r[|apiUrl|..|apiUrl| + |EVENTS_QUERY|] == EVENTS_QUERY
    ensures r[|apiUrl| + |EVENTS_QUERY|..] == token
  {
    apiUrl + EVENTS_QUERY + token
  }

  /** For a fixed API address, the event URL determines the token. */
  lemma EventUrlInjective(apiUrl: string, t1: string, t2: string)
    requires EventUrl(apiUrl, t1) == EventUrl(apiUrl, t2)
    ensures t1 == t2
  {
    var n := |apiUrl| + |EVENTS_QUERY|;
    assert t1 == EventUrl(apiUrl, t1)[n..];
  }

  /**
   * From the outcome of the login request (an error stands for a bad URL,
   * a failed request or a body that is not JSON) to the event stream's
   * address, or the error that ends the producer before it streams.
   */
  function StreamUrl(apiUrl: string, login: Result<Json, string>): (r: Result<string, string>)
    ensures r.Ok? <==> login.Ok? && AuthToken(login.value).Ok?
    ensures r.Ok? ==> r.value == EventUrl(apiUrl, AuthToken(login.value).value)
    ensures login.Err? ==> r == Err(login.error)
    ensures login.Ok? && r.Err? ==> r.error == NO_AUTH_TOKEN
  {
    match login
    case Err(e) => Err(e)
    case Ok(response) =>
      match AuthToken(response)
      case Ok(token) => Ok(EventUrl(apiUrl, token))
      case Err(e) => Err(e)
  }

  /**
   * One turn of the producer's loop: the item that arrived, whether `stop`
   * was set when the producer looked, and whether the consumer's end of the
   * channel still existed when it sent.
   */
  datatype Arrival = Arrival(item: StreamItem, stopSet: bool, receiverAlive: bool)

  /** How the producer's loop ends. */
  datatype LoopEnd = Stopped | StreamEnded | SendFailed

  /** Everything the loop sends, and how it ends. */
  datatype Forwarded = Forwarded(sent: seq<StreamItem>, end: LoopEnd)

  /**
   * The forwarding loop over a stream: each item is sent unchanged, stream
   * errors included, until `stop` is seen (that item is not sent), a send
   * fails (the item is lost) or the stream runs out.
   */
  function Forwarding(arrivals: seq<Arrival>): (r: Forwarded)
    ensures |r.sent| <= |arrivals|
    ensures forall k :: 0 <= k < |r.sent| ==>
      r.sent[k] == arrivals[k].item && !arrivals[k].stopSet && arrivals[k].receiverAlive
    ensures r.end == StreamEnded <==> |r.sent| == |arrivals|
    ensures r.end == Stopped ==> |r.sent| < |arrivals| && arrivals[|r.sent|].stopSet
    ensures r.end == SendFailed ==>
      |r.sent| < |arrivals| && !arrivals[|r.sent|].stopSet && !arrivals[|r.sent|].receiverAlive
    decreases |arrivals|
  {
    if |arrivals| == 0 then Forwarded([], StreamEnded)
    else if arrivals[0].stopSet then Forwarded([], Stopped)
    else if !arrivals[0].receiverAlive then Forwarded([], SendFailed)
    else
      var rest := Forwarding(arrivals[1..]);
      Forwarded([arrivals[0].item] + rest.sent, rest.end)
  }

  /** A stream that is never stopped or cut off is forwarded whole, in wire order. */
  lemma {:induction false} ForwardsEverything(arrivals: seq<Arrival>)
    requires forall k :: 0 <= k < |arrivals| ==> !arrivals[k].stopSet && arrivals[k].receiverAlive
    ensures Forwarding(arrivals) == Forwarded(Items(arrivals), StreamEnded)
    decreases |arrivals|
  {
    if |arrivals| > 0 {
      ForwardsEverything(arrivals[1..]);
      assert Items(arrivals) == [arrivals[0].item] + Items(arrivals[1..]);
    }
  }

  /** Once `stop` is seen, nothing after it is sent: a later arrival cannot change what was forwarded. */
  lemma {:induction false} StopIsFinal(arrivals: seq<Arrival>, more: seq<Arrival>)
    requires Forwarding(arrivals).end != StreamEnded
    ensures Forwarding(arrivals + more) == Forwarding(arrivals)
    decreases |arrivals|
  {
    if !arrivals[0].stopSet && arrivals[0].receiverAlive {
      assert (arrivals + more)[1..] == arrivals[1..] + more;
      StopIsFinal(arrivals[1..], more);
    }
  }

  /** The items of a run of arrivals, in order. */
  function Items(arrivals: seq<Arrival>): (r: seq<StreamItem>)
    ensures |r| == |arrivals|
    ensures forall k :: 0 <= k < |r| ==> r[k] == arrivals[k].item
  {
    seq(|arrivals|, k requires 0 <= k < |arrivals| => arrivals[k].item)
  }

  /** An arrival the loop forwards: `stop` was clear and the send went through. */
  predicate Passes(a: Arrival): (b: bool)
    ensures b ==> Forwarding([a]) == Forwarded([a.item], StreamEnded)
    ensures !b ==> Forwarding([a]).sent == [] && Forwarding([a]).end != StreamEnded
  {
    !a.stopSet && a.receiverAlive
  }

  /**
   * Where the loop leaves off: when the first `k` arrivals pass and the
   * next one (if any) does not, the loop forwards exactly those `k`.
   */
  lemma {:induction false} ForwardingExit(arrivals: seq<Arrival>, k: nat)
    requires k <= |arrivals|
    requires forall j :: 0 <= j < k ==> Passes(arrivals[j])
    requires k < |arrivals| ==> !Passes(arrivals[k])
    ensures Forwarding(arrivals).sent == Items(arrivals[..k])
    ensures Forwarding(arrivals).end ==
      if k == |arrivals| then StreamEnded else if arrivals[k].stopSet then Stopped else SendFailed
    decreases k
  {
    if k > 0 {
      var tail := arrivals[1..];
      ForwardingCons(arrivals);
      TailPasses(arrivals, k);
      ForwardingExit(tail, k - 1);
      ItemsCons(arrivals, k);
    }
  }

  /** The first arrival passes: it is sent, and the rest is forwarded after it. */
  lemma ForwardingCons(arrivals: seq<Arrival>)
    requires |arrivals| > 0 && Passes(arrivals[0])
    ensures Forwarding(arrivals) ==
      Forwarded([arrivals[0].item] + Forwarding(arrivals[1..]).sent, Forwarding(arrivals[1..]).end)
  {
  }

  lemma TailPasses(arrivals: seq<Arrival>, k: nat)
    requires 0 < k <= |arrivals|
    requires forall j :: 0 <= j < k ==> Passes(arrivals[j])
    requires k < |arrivals| ==> !Passes(arrivals[k])
    ensures forall j :: 0 <= j < k - 1 ==> Passes(arrivals[1..][j])
    ensures k - 1 < |arrivals[1..]| ==> !Passes(arrivals[1..][k - 1]) && arrivals[1..][k - 1] == arrivals[k]
  {
    forall j | 0 <= j < k - 1
      ensures Passes(arrivals[1..][j])
    {
      assert arrivals[1..][j] == arrivals[j + 1];
    }
  }

  lemma ItemsCons(arrivals: seq<Arrival>, k: nat)
    requires 0 < k <= |arrivals|
    ensures Items(arrivals[..k]) == [arrivals[0].item] + Items(arrivals[1..][..k - 1])
  {
    assert arrivals[..k] == [arrivals[0]] + arrivals[1..][..k - 1];
  }

  /**
   * The loop of `create_data_stream_thread` over the stream's arrivals,
   * sending into the channel `ch`. The field `ch.stop` is not consulted:
   * `Drop` may run on the other thread at any moment, so what each load of
   * the flag saw is given per arrival as `stopSet`.
   */
  method ForwardEvents(ch: DataStreamer, arrivals: seq<Arrival>) returns (end: LoopEnd)
    modifies ch
    ensures ch.buffer == old(ch.buffer) + Forwarding(arrivals).sent
    ensures end == Forwarding(arrivals).end
    ensures ch.senderAlive == old(ch.senderAlive) && ch.stop == old(ch.stop)
  {
    var k := 0;
    while k < |arrivals|
      invariant k <= |arrivals|
      invariant forall j :: 0 <= j < k ==> Passes(arrivals[j])
      invariant ch.buffer == old(ch.buffer) + Items(arrivals[..k])
      invariant ch.senderAlive == old(ch.senderAlive) && ch.stop == old(ch.stop)
      decreases |arrivals| - k
    {
      if arrivals[k].stopSet {
        ForwardingExit(arrivals, k);
        return Stopped;
      }
      if !arrivals[k].receiverAlive {
        ForwardingExit(arrivals, k);
        return SendFailed;
      }
      assert Items(arrivals[..k + 1]) == Items(arrivals[..k]) + [arrivals[k].item];
      ch.buffer := ch.buffer + [arrivals[k].item];
      k := k + 1;
    }
    ForwardingExit(arrivals, k);
    return StreamEnded;
  }

  /**
   * `create_data_stream_thread` from the login on: the stream's address is
   * formed from the login response and, when there is one, the stream is
   * forwarded. The thread's result is its loop's (a failed send is an
   * error; a stop or the end of the stream is not), and however the thread
   * ends, its sender is dropped.
   */
  method StreamThread(ch: DataStreamer, apiUrl: string, login: Result<Json, string>, arrivals: seq<Arrival>)
    returns (r: Result<(), string>, url: Option<string>)
    modifies ch
    ensures !ch.senderAlive && ch.stop == old(ch.stop)
    ensures url.Some? <==> StreamUrl(apiUrl, login).Ok?
    ensures StreamUrl(apiUrl, login).Err? ==>
      r == Err(StreamUrl(apiUrl, login).error) && ch.buffer == old(ch.buffer)
    ensures StreamUrl(apiUrl, login).Ok? ==>
      url == Some(StreamUrl(apiUrl, login).value)
      && ch.buffer == old(ch.buffer) + Forwarding(arrivals).sent
      && r == if Forwarding(arrivals).end == SendFailed then Err(SEND_FAILED) else Ok(())
  {
    match StreamUrl(apiUrl, login) {
      case Err(e) =>
        r, url := Err(e), None;
      case Ok(eventUrl) =>
        url := Some(eventUrl);
        var end := ForwardEvents(ch, arrivals);
        r := if end == SendFailed then Err(SEND_FAILED) else Ok(());
    }
    ch.senderAlive := false;
  }

  /**
   * From the producer to the consumer: once the producer thread has ended,
   * polling the channel yields, in wire order, the decoding of each item the
   * loop forwarded (stream errors and unparseable data as errors in their
   * place, the others as their values), and `Disconnected` from then on.
   */
  lemma DeliveredInWireOrder(arrivals: seq<Arrival>, parse: string -> Option<Json>, n: nat)
    ensures var sent := Forwarding(arrivals).sent;
      |Polls(sent, false, parse, n).0| == n
      && (forall k :: 0 <= k < n && k < |sent| ==> Polls(sent, false, parse, n).0[k] == Decode(arrivals[k].item, parse))
      && (forall k :: |sent| <= k < n ==> Polls(sent, false, parse, n).0[k] == Err(Disconnected))
  {
    PollsInOrder(Forwarding(arrivals).sent, false, parse, n);
  }
}
