/**
 * The data socket that `ftp.get` hands to getFtpFileToMemory, flattened into the
 * finite, ordered list of events it delivers, and the meaning of the handlers the
 * client attaches to it: a buffer that starts empty and grows by each `data`
 * chunk, and a `close` handler that rejects on an error and then resolves with
 * the buffer.
 */
module Stream {
  import opened Wrappers
  import opened Failures
  import opened Promises

  newtype Byte = b: int | 0 <= b < 256

  datatype Event = Data(chunk: seq<Byte>) | Close(err: Option<LibError>)

  /** The chunks joined in order: c1 + c2 + ... + cn. */
  function Flatten(chunks: seq<seq<Byte>>): seq<Byte> {
    if chunks == [] then [] else chunks[0] + Flatten(chunks[1..])
  }

  /** A socket delivering exactly the chunks `chunks`, one `data` event each. */
  function DataEvents(chunks: seq<seq<Byte>>): (events: seq<Event>)
    ensures |events| == |chunks|
    ensures forall i :: 0 <= i < |chunks| ==> events[i] == Data(chunks[i])
  {
    seq(|chunks|, i requires 0 <= i < |chunks| => Data(chunks[i]))
  }

  /** The bytes of the `data` events of `events`, in delivery order. */
  function Payload(events: seq<Event>): seq<Byte> {
    if events == [] then []
    else
      var last := events[|events| - 1];
      Payload(events[..|events| - 1]) + (if last.Data? then last.chunk else [])
  }

  /** Where the first `close` event is, if there is one. */
  function FirstClose(events: seq<Event>): (k: Option<nat>)
    ensures k.Some? ==> k.value < |events| && events[k.value].Close?
    ensures k.Some? ==> forall j :: 0 <= j < k.value ==> events[j].Data?
    ensures k.None? ==> forall j :: 0 <= j < |events| ==> events[j].Data?
  {
    if events == [] then None
    else if events[0].Close? then Some(0)
    else
      match FirstClose(events[1..])
      case None => None
      case Some(k) => Some(k + 1)
  }

  /**
   * The state of getFtpFileToMemory's promise once the socket has delivered
   * `events`: pending until the first `close`; then rejected with that close's
   * error if it carries one, and otherwise fulfilled with every byte delivered
   * before it.
   */
  function StreamOutcome(events: seq<Event>): PromiseState<seq<Byte>, Reason> {
    match FirstClose(events)
    case None => Pending
    case Some(k) =>
      match events[k].err
      case Some(e) => Rejected(Library(e))
      case None => Fulfilled(Payload(events[..k]))
  }

  /** What the two handlers do with the promise on one more event, given the buffer so far. */
  function Handle(s: PromiseState<seq<Byte>, Reason>, buffer: seq<Byte>, e: Event): PromiseState<seq<Byte>, Reason> {
    match e
    case Data(_) => s
    case Close(None) => s.Resolve(buffer)
    case Close(Some(err)) => s.Reject(Library(err)).Resolve(buffer)
  }

  lemma {:induction false} PayloadAppend(a: seq<Event>, b: seq<Event>)
    ensures Payload(a + b) == Payload(a) + Payload(b)
    decreases |b|
  {
    if b == [] {
      assert a + b == a;
    } else {
      var b' := b[..|b| - 1];
      assert (a + b)[..|a + b| - 1] == a + b';
      PayloadAppend(a, b');
    }
  }

  /** The bytes of a socket that only delivers data are the chunks joined in order. */
  lemma {:induction false} PayloadOfData(chunks: seq<seq<Byte>>)
    ensures Payload(DataEvents(chunks)) == Flatten(chunks)
    decreases |chunks|
  {
    if chunks != [] {
      var events := DataEvents(chunks);
      assert events == [Data(chunks[0])] + DataEvents(chunks[1..]);
      PayloadAppend([Data(chunks[0])], DataEvents(chunks[1..]));
      assert Payload([Data(chunks[0])]) == chunks[0] by {
        assert [Data(chunks[0])][..0] == [];
      }
      PayloadOfData(chunks[1..]);
    }
  }

  /** One event moves the promise exactly as the socket handlers do. */
  lemma StreamStep(events: seq<Event>, e: Event)
    ensures StreamOutcome(events + [e]) == Handle(StreamOutcome(events), Payload(events), e)
  {
    var all := events + [e];
    assert all[..|events|] == events;
    match FirstClose(events)
    case Some(k) =>
      assert FirstClose(all) == Some(k) by { FirstCloseAt(all, k); }
      assert all[..k] == events[..k];
    case None =>
      if e.Close? {
        assert FirstClose(all) == Some(|events|) by { FirstCloseAt(all, |events|); }
      } else {
        assert FirstClose(all) == None;
      }
  }

  /** A close at `k` preceded only by data events is the first close. */
  lemma FirstCloseAt(events: seq<Event>, k: nat)
    requires k < |events| && events[k].Close?
    requires forall j :: 0 <= j < k ==> events[j].Data?
    ensures FirstClose(events) == Some(k)
  {
  }

  /** A clean close resolves with every chunk before it, in order; later events change nothing. */
  lemma CleanCloseDeliversAll(chunks: seq<seq<Byte>>, rest: seq<Event>)
    ensures StreamOutcome(DataEvents(chunks) + [Close(None)] + rest) == Fulfilled(Flatten(chunks))
  {
    var events := DataEvents(chunks) + [Close(None)] + rest;
    FirstCloseAt(events, |chunks|);
    assert events[..|chunks|] == DataEvents(chunks);
    PayloadOfData(chunks);
  }

  /** A close carrying an error rejects with it; the bytes already buffered are never handed out. */
  lemma ErrorCloseRejects(chunks: seq<seq<Byte>>, err: LibError, rest: seq<Event>)
    ensures StreamOutcome(DataEvents(chunks) + [Close(Some(err))] + rest) == Rejected(Library(err))
  {
    var events := DataEvents(chunks) + [Close(Some(err))] + rest;
    FirstCloseAt(events, |chunks|);
  }

  /** A socket that never closes leaves the promise pending. */
  lemma NoCloseStaysPending(chunks: seq<seq<Byte>>)
    ensures StreamOutcome(DataEvents(chunks)) == Pending
  {
    var events := DataEvents(chunks);
    assert forall j :: 0 <= j < |events| ==> events[j].Data?;
  }
}
