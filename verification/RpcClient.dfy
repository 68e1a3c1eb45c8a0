/**
 The client side of the JSON-RPC connection (section 5 of JSON-RPC 2.0): responses are matched
 to the request that waits for them, and every other frame is kept for later reading.
 */
module RpcClient {
  import opened Prelude

  datatype Frame = Frame(id: Option<string>, result: Option<string>, error: Option<string>, body: string)

  predicate IsError(f: Frame) { f.id.Some? && f.error.Some? }

  predicate IsResponse(f: Frame) { f.id.Some? && (f.result.Some? || f.error.Some?) }

  /** What the socket yields; the end of the sequence is the end of the stream. */
  datatype Item = Data(frame: Frame) | Unparsable | Control | CloseFrame | Fault

  datatype Error = Closed | SocketError | ParseError | Timeout | Server(message: string)

  predicate Answers(f: Frame, id: string) {
    IsResponse(f) && f.id == Some(id)
  }

  // ---- Reading one frame ----

  datatype Read = Read(result: Result<Frame, Error>, rest: seq<Item>)

  function NextFrame(incoming: seq<Item>): (r: Read)
    ensures |r.rest| <= |incoming| && (r.result.Ok? ==> |r.rest| < |incoming|)
  {
    if incoming == [] then Read(Err(Closed), [])
    else
      match incoming[0]
      case Data(f) => Read(Ok(f), incoming[1..])
      case Unparsable => Read(Err(ParseError), incoming[1..])
      case Control => NextFrame(incoming[1..])
      case CloseFrame => Read(Err(Closed), incoming[1..])
      case Fault => Read(Err(SocketError), incoming[1..])
  }

  // ---- Waiting for a response ----

  /** `buffered` are the frames read before the wait ended, `answer` the one it ended with, if any. */
  datatype Wait = Wait(buffered: seq<Frame>, answer: Option<Frame>, error: Option<Error>, rest: seq<Item>)

  /** The wait gives up after `patience` frames. */
  function Await(incoming: seq<Item>, id: string, patience: nat): Wait
    decreases |incoming|
  {
    if patience == 0 then Wait([], None, Some(Timeout), incoming)
    else
      var read := NextFrame(incoming);
      if read.result.Err? then Wait([], None, Some(read.result.error), read.rest)
      else if Answers(read.result.value, id) then Wait([], Some(read.result.value), None, read.rest)
      else
        var later := Await(read.rest, id, patience - 1);
        later.(buffered := [read.result.value] + later.buffered)
  }

  function Reply(w: Wait): Result<Frame, Error>
    requires w.answer.Some? || w.error.Some?
  {
    if w.answer.None? then Err(w.error.value)
    else if IsError(w.answer.value) then Err(Server(w.answer.value.error.value))
    else Ok(w.answer.value)
  }

  /** A wait ends with the first frame that answers the request, and buffers only frames that do not. */
  lemma {:induction false} AwaitTakesFirstAnswer(incoming: seq<Item>, id: string, patience: nat)
    ensures var w := Await(incoming, id, patience);
            && (w.answer.Some? <==> w.error.None?) && (w.answer.Some? ==> Answers(w.answer.value, id))
            && |w.buffered| <= patience && forall k :: 0 <= k < |w.buffered| ==> !Answers(w.buffered[k], id)
    decreases |incoming|
  {
    if patience > 0 {
      var read := NextFrame(incoming);
      if read.result.Ok? && !Answers(read.result.value, id) { AwaitTakesFirstAnswer(read.rest, id, patience - 1); }
    }
  }

  /** An answer with an error is returned as that error, any other as it is; without an answer the wait's own error. */
  lemma ReplyTells(incoming: seq<Item>, id: string, patience: nat)
    ensures var w := Await(incoming, id, patience);
            && (w.answer.Some? || w.error.Some?)
            && match w.answer
               case None => Reply(w) == Err(w.error.value)
               case Some(f) => if f.error.Some? then Reply(w) == Err(Server(f.error.value)) else Reply(w) == Ok(f)
  {
    AwaitTakesFirstAnswer(incoming, id, patience);
  }

  /** The item at `k` is the first that is not a control message. */
  predicate Decides(incoming: seq<Item>, k: nat) {
    k < |incoming| && !incoming[k].Control? && forall j :: 0 <= j < k ==> incoming[j].Control?
  }

  /** Control messages are skipped, and the first other item decides: a frame, or its own kind of error. */
  lemma {:induction false} FirstItemDecides(incoming: seq<Item>, k: nat)
    requires Decides(incoming, k)
    ensures var r := NextFrame(incoming);
            && r.rest == incoming[k + 1..]
            && match incoming[k]
               case Data(f) => r.result == Ok(f)
               case Unparsable => r.result == Err(ParseError)
               case CloseFrame => r.result == Err(Closed)
               case Fault => r.result == Err(SocketError)
               case Control => false
  {
    if k > 0 {
      FirstItemDecides(incoming[1..], k - 1);
    }
  }

  lemma {:induction false} NothingDecides(incoming: seq<Item>)
    requires forall j :: 0 <= j < |incoming| ==> incoming[j].Control?
    ensures NextFrame(incoming) == Read(Err(Closed), [])
  {
    if incoming != [] { NothingDecides(incoming[1..]); }
  }

  lemma {:induction false} NeverTimesOut(incoming: seq<Item>)
    ensures NextFrame(incoming).result != Err(Timeout)
  {
    if incoming != [] && incoming[0].Control? { NeverTimesOut(incoming[1..]); }
  }

  /** A wait times out exactly if its patience ran out on frames that do not answer. */
  lemma {:induction false} TimesOutIff(incoming: seq<Item>, id: string, patience: nat)
    ensures var w := Await(incoming, id, patience); w.error == Some(Timeout) <==> |w.buffered| == patience
    decreases |incoming|
  {
    if patience > 0 {
      NeverTimesOut(incoming);
      var read := NextFrame(incoming);
      if read.result.Ok? && !Answers(read.result.value, id) { TimesOutIff(read.rest, id, patience - 1); }
    }
  }

  // ---- What arrived, and where it went ----

  datatype Arrival = Arrival(frame: Frame, matched: bool)

  function Unmatched(log: seq<Arrival>): seq<Frame> {
    if log == [] then []
    else
      var last := log[|log| - 1];
      Unmatched(log[..|log| - 1]) + if last.matched then [] else [last.frame]
  }

  function Frames(items: seq<Item>): seq<Frame> {
    if items == [] then [] else (if items[0].Data? then [items[0].frame] else []) + Frames(items[1..])
  }

  function Buffered(frames: seq<Frame>): seq<Arrival> {
    seq(|frames|, i requires 0 <= i < |frames| => Arrival(frames[i], false))
  }

  function Taken(answer: Option<Frame>): seq<Frame> {
    if answer.Some? then [answer.value] else []
  }

  function LogOf(w: Wait): seq<Arrival> {
    Buffered(w.buffered) + if w.answer.Some? then [Arrival(w.answer.value, true)] else []
  }

  function All(log: seq<Arrival>): seq<Frame> {
    seq(|log|, i requires 0 <= i < |log| => log[i].frame)
  }

  /** Frames delivered, then those buffered, are the arrivals in order without the matched responses. */
  ghost predicate Conserved(delivered: seq<Frame>, pending: seq<Frame>, log: seq<Arrival>) {
    delivered + pending == Unmatched(log)
  }

  /** What arrived and what is still to come are the stream. */
  ghost predicate Whole(log: seq<Arrival>, incoming: seq<Item>, stream: seq<Frame>) {
    All(log) + Frames(incoming) == stream
  }

  /** The ids issued are those of the counter values so far. */
  ghost predicate Numbered(issued: seq<string>, counter: nat, show: nat -> string) {
    |issued| + 1 == counter && forall k :: 0 <= k < |issued| ==> issued[k] == "req_" + show(k + 1)
  }

  class Client {
    const show: nat -> string
    var incoming: seq<Item>
    var pending: seq<Frame>
    var counter: nat
    ghost var stream: seq<Frame>
    ghost var log: seq<Arrival>
    ghost var delivered: seq<Frame>
    ghost var issued: seq<string>

    ghost predicate Valid()
      reads this
    {
      Conserved(delivered, pending, log) && Whole(log, incoming, stream) && Numbered(issued, counter, show)
    }

    constructor (incoming: seq<Item>, show: nat -> string)
      ensures Valid() && this.show == show && stream == Frames(incoming) && log == [] && delivered == [] && issued == []
    {
      this.show, this.incoming, pending, counter := show, incoming, [], 1;
      stream, log, delivered, issued := Frames(incoming), [], [], [];
    }

    method ReadFrameFromWs() returns (r: Result<Frame, Error>)
      modifies this`incoming
      ensures Read(r, incoming) == NextFrame(old(incoming))
    {
      while true
        invariant NextFrame(incoming) == NextFrame(old(incoming))
        decreases |incoming|
      {
        if incoming == [] {
          return Err(Closed);
        }
        var item := incoming[0];
        incoming := incoming[1..];
        match item {
          case Data(f) => return Ok(f);
          case Unparsable => return Err(ParseError);
          case Control => continue;
          case CloseFrame => return Err(Closed);
          case Fault => return Err(SocketError);
        }
      }
    }

    /** The oldest buffered frame, or the next from the socket. */
    method ReadFrame() returns (r: Result<Frame, Error>)
      requires Valid()
      modifies this
      ensures Valid() && stream == old(stream) && issued == old(issued) && counter == old(counter)
      ensures r.Ok? ==> delivered == old(delivered) + [r.value]
      ensures r.Err? ==> delivered == old(delivered) && old(pending) == [] && pending == []
      ensures old(pending) != [] ==> r == Ok(old(pending)[0]) && incoming == old(incoming) && log == old(log)
    {
      if pending != [] {
        r := Ok(pending[0]);
        delivered := delivered + [pending[0]];
        pending := pending[1..];
        return;
      }
      ReadKeeps(delivered, log, incoming, stream);
      r := ReadFrameFromWs();
      if r.Ok? {
        log := log + [Arrival(r.value, false)];
        delivered := delivered + [r.value];
      }
    }

    /** The loop that waits for the answer to request `id`. */
    method AwaitResponse(id: string, patience: nat) returns (w: Wait)
      modifies this`incoming, this`pending
      ensures w == Await(old(incoming), id, patience)
      ensures incoming == w.rest && pending == old(pending) + w.buffered
    {
      ghost var start := incoming;
      var left: nat := patience;
      var buffered: seq<Frame> := [];
      while true
        invariant left <= patience && pending == old(pending) + buffered
        invariant var more := Await(incoming, id, left);
                  Await(start, id, patience) == more.(buffered := buffered + more.buffered)
        decreases |incoming|
      {
        if left == 0 {
          return Wait(buffered, None, Some(Timeout), incoming);
        }
        ghost var here := incoming;
        var r := ReadFrameFromWs();
        if r.Err? {
          return Wait(buffered, None, Some(r.error), incoming);
        }
        if Answers(r.value, id) {
          return Wait(buffered, Some(r.value), None, incoming);
        }
        pending := pending + [r.value];
        ghost var more := Await(incoming, id, left - 1);
        assert buffered + ([r.value] + more.buffered) == (buffered + [r.value]) + more.buffered;
        buffered := buffered + [r.value];
        left := left - 1;
      }
    }

    method Request(sendFails: bool, patience: nat) returns (r: Result<Frame, Error>)
      requires Valid()
      modifies this
      ensures Valid() && stream == old(stream) && delivered == old(delivered)
      ensures counter == old(counter) + 1 && issued == old(issued) + ["req_" + show(old(counter))]
      ensures sendFails ==> r == Err(SocketError) && log == old(log) && pending == old(pending)
      ensures !sendFails ==>
                var w := Await(old(incoming), "req_" + show(old(counter)), patience);
                && (w.answer.Some? || w.error.Some?) && r == Reply(w)
                && pending == old(pending) + w.buffered && log == old(log) + LogOf(w)
    {
      var id := "req_" + show(counter);
      issued := issued + [id];
      counter := counter + 1;
      if sendFails {
        return Err(SocketError);
      }
      AwaitTakesFirstAnswer(incoming, id, patience);
      WaitKeeps(delivered, pending, log, incoming, stream, id, patience);
      var w := AwaitResponse(id, patience);
      log := log + LogOf(w);
      return Reply(w);
    }
  }

  lemma LogPush(log: seq<Arrival>, a: Arrival)
    ensures Unmatched(log + [a]) == Unmatched(log) + if a.matched then [] else [a.frame]
    ensures All(log + [a]) == All(log) + [a.frame]
  {
    assert (log + [a])[..|log|] == log;
  }

  lemma {:induction false} UnmatchedAppend(log: seq<Arrival>, frames: seq<Frame>)
    ensures Unmatched(log + Buffered(frames)) == Unmatched(log) + frames
    ensures All(log + Buffered(frames)) == All(log) + frames
    decreases |frames|
  {
    if frames == [] {
      assert log + Buffered(frames) == log;
    } else {
      var front, last := frames[..|frames| - 1], frames[|frames| - 1];
      UnmatchedAppend(log, front);
      assert log + Buffered(frames) == log + Buffered(front) + [Arrival(last, false)];
      LogPush(log + Buffered(front), Arrival(last, false));
      assert frames == front + [last];
    }
  }

  lemma LogAppend(log: seq<Arrival>, w: Wait)
    ensures Unmatched(log + LogOf(w)) == Unmatched(log) + w.buffered
    ensures All(log + LogOf(w)) == All(log) + w.buffered + Taken(w.answer)
  {
    UnmatchedAppend(log, w.buffered);
    if w.answer.Some? {
      var a := Arrival(w.answer.value, true);
      LogPush(log + Buffered(w.buffered), a);
      assert log + LogOf(w) == log + Buffered(w.buffered) + [a];
    } else {
      assert log + LogOf(w) == log + Buffered(w.buffered);
    }
  }

  lemma ReadKeeps(delivered: seq<Frame>, log: seq<Arrival>, incoming: seq<Item>, stream: seq<Frame>)
    requires Conserved(delivered, [], log) && Whole(log, incoming, stream)
    ensures var r := NextFrame(incoming);
            if r.result.Ok? then
              && Conserved(delivered + [r.result.value], [], log + [Arrival(r.result.value, false)])
              && Whole(log + [Arrival(r.result.value, false)], r.rest, stream)
            else Whole(log, r.rest, stream)
  {
    ReadSplits(incoming);
    var r := NextFrame(incoming);
    if r.result.Ok? {
      LogPush(log, Arrival(r.result.value, false));
      assert delivered + [] == delivered;
      assert All(log) + ([r.result.value] + Frames(r.rest)) == All(log) + [r.result.value] + Frames(r.rest);
    }
  }

  lemma WaitKeeps(
    delivered: seq<Frame>, pending: seq<Frame>, log: seq<Arrival>, incoming: seq<Item>, stream: seq<Frame>,
    id: string, patience: nat)
    requires Conserved(delivered, pending, log) && Whole(log, incoming, stream)
    ensures var w := Await(incoming, id, patience);
            Conserved(delivered, pending + w.buffered, log + LogOf(w)) && Whole(log + LogOf(w), w.rest, stream)
  {
    var w := Await(incoming, id, patience);
    AwaitSplits(incoming, id, patience);
    LogAppend(log, w);
    WaitRegroups(delivered, pending, w.buffered, All(log), Taken(w.answer), Frames(w.rest));
  }

  lemma WaitRegroups(a: seq<Frame>, b: seq<Frame>, c: seq<Frame>, d: seq<Frame>, e: seq<Frame>, f: seq<Frame>)
    ensures a + b + c == a + (b + c) && d + (c + e + f) == d + c + e + f
  {
  }

  /** Reading takes the first frame and nothing behind it. */
  lemma {:induction false} ReadSplits(incoming: seq<Item>)
    ensures var r := NextFrame(incoming);
            Frames(incoming) == (if r.result.Ok? then [r.result.value] else []) + Frames(r.rest)
  {
    if incoming != [] && incoming[0].Control? { ReadSplits(incoming[1..]); }
  }

  lemma {:induction false} AwaitSplits(incoming: seq<Item>, id: string, patience: nat)
    ensures var w := Await(incoming, id, patience);
            Frames(incoming) == w.buffered + Taken(w.answer) + Frames(w.rest)
    decreases |incoming|
  {
    if patience > 0 {
      ReadSplits(incoming);
      var read := NextFrame(incoming);
      if read.result.Ok? && !Answers(read.result.value, id) {
        AwaitSplits(read.rest, id, patience - 1);
        var later := Await(read.rest, id, patience - 1);
        WaitRegroups([], [], later.buffered, [read.result.value], Taken(later.answer), Frames(later.rest));
      }
    }
  }

  ghost predicate Injective(show: nat -> string) {
    forall a, b :: show(a) == show(b) ==> a == b
  }

  lemma NumeralsTell(show: nat -> string, m: nat, n: nat)
    requires Injective(show) && "req_" + show(m) == "req_" + show(n)
    ensures m == n
  {
    var a, b := "req_" + show(m), "req_" + show(n);
    assert a[4..] == show(m) && b[4..] == show(n);
  }

  /**
   With distinct numerals the ids a client has issued are all different and the next one is new,
   so a late answer to one request never answers another.
   */
  lemma IdsAreNeverReused(c: Client)
    requires c.Valid() && Injective(c.show)
    ensures forall i, j :: 0 <= i < j < |c.issued| ==> c.issued[i] != c.issued[j]
    ensures "req_" + c.show(c.counter) !in c.issued
    ensures forall i, j, f :: 0 <= i < j < |c.issued| && Answers(f, c.issued[i]) ==> !Answers(f, c.issued[j])
  {
    forall i, j | 0 <= i < j < |c.issued| ensures c.issued[i] != c.issued[j] {
      if c.issued[i] == c.issued[j] { NumeralsTell(c.show, i + 1, j + 1); }
    }
    forall i | 0 <= i < |c.issued| ensures c.issued[i] != "req_" + c.show(c.counter) {
      if c.issued[i] == "req_" + c.show(c.counter) { NumeralsTell(c.show, i + 1, c.counter); }
    }
  }
}
