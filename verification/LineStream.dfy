/**
 Reassembly of provider response lines from byte chunks.  Chunks are cut at character
 boundaries, so a chunk is its text; the provider's line parser is any stateful function.
 */
module LineStream {
  import opened Prelude
  import opened Text

  datatype Protocol = Sse | NdJson

  datatype Chunk = Data(text: string) | Broken(error: string)

  datatype Item<D> = Delta(d: D) | Failure(error: string)

  /** `parse` returns no deltas at all (`None`) to signal the logical end of the stream. */
  datatype Parser<!P, !D> = Parser(
    protocol: Protocol, parse: (P, string) -> (P, Option<seq<D>>), finish: P -> seq<D>)

  /** What a raw line hands to the parser, if anything. */
  function Payload(protocol: Protocol, raw: string): Option<string> {
    var line := Trim(raw);
    match protocol
    case Sse => if "data: " <= line then Some(Trim(line[6..])) else None
    case NdJson => if line == "" then None else Some(line)
  }

  function Deltas<D>(ds: seq<D>): seq<Item<D>> {
    seq(|ds|, i requires 0 <= i < |ds| => Delta(ds[i]))
  }

  /** Everything still to be emitted once the pending deltas are gone. */
  function Emits<P, D>(ps: Parser<P, D>, buffer: string, chunks: seq<Chunk>, p: P, finish: bool): seq<Item<D>>
    decreases |chunks|, |buffer|
  {
    match Find(buffer, '\n')
    case Some(k) =>
      var rest := buffer[k + 1..];
      (match Payload(ps.protocol, buffer[..k])
       case None => Emits(ps, rest, chunks, p, finish)
       case Some(data) =>
         var (p', r) := ps.parse(p, data);
         match r
         case None =>
           var last := if finish then ps.finish(p') else [];
           if last == [] then [] else Deltas(last) + Emits(ps, rest, chunks, p', false)
         case Some(ds) => Deltas(ds) + Emits(ps, rest, chunks, p', finish))
    case None =>
      if chunks == [] then (if finish then Deltas(ps.finish(p)) else [])
      else
        match chunks[0]
        case Data(text) => Emits(ps, buffer + text, chunks[1..], p, finish)
        case Broken(e) => [Failure(e)] + Emits(ps, buffer, chunks[1..], p, finish)
  }

  class Stream<P(0), D(0)> {
    const ps: Parser<P, D>
    var chunks: seq<Chunk>
    var buffer: string
    var pending: seq<D>
    var state: P
    var finish: bool            // `on_finish` not taken yet
    ghost var finishRuns: nat   // how often it has run

    ghost predicate Valid()
      reads this
    {
      finishRuns == if finish then 0 else 1
    }

    ghost function Remaining(): seq<Item<D>>
      reads this
    {
      Deltas(pending) + Emits(ps, buffer, chunks, state, finish)
    }

    constructor (ps: Parser<P, D>, chunks: seq<Chunk>, state: P)
      ensures Valid() && this.ps == ps && Remaining() == Emits(ps, "", chunks, state, true)
    {
      this.ps := ps;
      this.chunks, this.buffer, this.pending := chunks, "", [];
      this.state, this.finish, this.finishRuns := state, true, 0;
      new;
      assert Deltas(pending) == [];
    }

    method Pop() returns (item: Item<D>)
      requires Valid() && pending != []
      modifies this`pending
      ensures Valid() && [item] + Remaining() == old(Remaining())
    {
      item := Delta(pending[0]);
      assert Deltas(pending) == [item] + Deltas(pending[1..]);
      pending := pending[1..];
    }

    /** Runs `on_finish` if it has not run. */
    method Flush() returns (last: seq<D>)
      requires Valid() && pending == []
      modifies this`pending, this`finish, this`finishRuns
      ensures Valid() && !finish && pending == last
      ensures last == if old(finish) then ps.finish(state) else []
    {
      last := [];
      if finish {
        last := ps.finish(state);
        finish, finishRuns := false, finishRuns + 1;
      }
      pending := last;
    }

    /** Takes one line off the buffer and parses it; `ended` reports the end signal. */
    method ParseLine() returns (ended: bool)
      requires Valid() && pending == [] && Find(buffer, '\n').Some?
      modifies this
      ensures Valid() && chunks == old(chunks) && |buffer| < |old(buffer)|
      ensures !ended || pending != [] ==> Remaining() == old(Remaining())
      ensures ended && pending == [] ==> old(Remaining()) == []
    {
      ended := false;
      var lineEnd := Find(buffer, '\n').value;
      var data := Payload(ps.protocol, buffer[..lineEnd]);
      buffer := buffer[lineEnd + 1..];
      if data.Some? {
        var (state', parsed) := ps.parse(state, data.value);
        state := state';
        match parsed {
          case None =>
            ended := true;
            var _ := Flush();
          case Some(deltas) =>
            pending := deltas;
        }
      }
    }

    /** One poll: yields exactly the next item still to come, or nothing when none is. */
    method Next() returns (item: Option<Item<D>>)
      requires Valid()
      modifies this
      ensures Valid()
      ensures item.Some? ==> [item.value] + Remaining() == old(Remaining())
      ensures item.None? ==> old(Remaining()) == []
    {
      while true
        invariant Valid() && Remaining() == old(Remaining())
        decreases |chunks|
      {
        if pending != [] {
          var next := Pop();
          return Some(next);
        }
        ghost var left := chunks;
        while Find(buffer, '\n').Some?
          invariant Valid() && Remaining() == old(Remaining()) && pending == [] && chunks == left
          decreases |buffer|
        {
          var ended := ParseLine();
          if pending != [] {
            var next := Pop();
            return Some(next);
          }
          if ended {
            return None;
          }
        }
        if chunks == [] {
          var last := Flush();
          if last == [] {
            return None;
          }
          var next := Pop();
          return Some(next);
        }
        var chunk := chunks[0];
        chunks := chunks[1..];
        match chunk {
          case Data(text) => buffer := buffer + text;
          case Broken(e) => return Some(Failure(e));
        }
      }
    }
  }

  // ---- The same text, however it is cut ----

  /** The text carried by the chunks; a broken chunk carries none. */
  function TextOf(chunks: seq<Chunk>): string {
    if chunks == [] then ""
    else (if chunks[0].Data? then chunks[0].text else "") + TextOf(chunks[1..])
  }

  function Good<D>(items: seq<Item<D>>): seq<D> {
    if items == [] then []
    else (if items[0].Delta? then [items[0].d] else []) + Good(items[1..])
  }

  lemma {:induction false} GoodConcat<D>(a: seq<Item<D>>, b: seq<Item<D>>)
    ensures Good(a + b) == Good(a) + Good(b)
    decreases |a|
  {
    if a == [] {
      assert a + b == b;
    } else {
      var first := if a[0].Delta? then [a[0].d] else [];
      GoodConcat(a[1..], b);
      calc {
        Good(a + b);
        { assert (a + b)[0] == a[0] && (a + b)[1..] == a[1..] + b; }
        first + Good(a[1..] + b);
        first + (Good(a[1..]) + Good(b));
        (first + Good(a[1..])) + Good(b);
      }
    }
  }

  lemma {:induction false} GoodDeltas<D>(ds: seq<D>)
    ensures Good(Deltas(ds)) == ds
    decreases |ds|
  {
    if ds != [] {
      assert Deltas(ds)[1..] == Deltas(ds[1..]);
      GoodDeltas(ds[1..]);
    }
  }

  /** The complete lines of a text, in order. */
  function Lines(text: string): seq<string>
    decreases |text|
  {
    match Find(text, '\n')
    case None => []
    case Some(k) => [text[..k]] + Lines(text[k + 1..])
  }

  /** What a list of complete lines emits, `finish` telling whether `on_finish` may still run. */
  function LineEmits<P, D>(ps: Parser<P, D>, lines: seq<string>, p: P, finish: bool): seq<D> {
    if lines == [] then (if finish then ps.finish(p) else [])
    else
      match Payload(ps.protocol, lines[0])
      case None => LineEmits(ps, lines[1..], p, finish)
      case Some(data) =>
        var (p', r) := ps.parse(p, data);
        match r
        case None =>
          var last := if finish then ps.finish(p') else [];
          if last == [] then [] else last + LineEmits(ps, lines[1..], p', false)
        case Some(ds) => ds + LineEmits(ps, lines[1..], p', finish)
  }

  /**
   The deltas depend on the text alone: neither where it is cut nor the read errors between
   the chunks change them.
   */
  lemma {:induction false} ChunkingIndependence<P, D>(
    ps: Parser<P, D>, buffer: string, chunks: seq<Chunk>, p: P, finish: bool)
    ensures Good(Emits(ps, buffer, chunks, p, finish)) == LineEmits(ps, Lines(buffer + TextOf(chunks)), p, finish)
    decreases |chunks|, |buffer|
  {
    var text := TextOf(chunks);
    match Find(buffer, '\n')
    case Some(k) =>
      FindInPrefix(buffer, text, '\n');
      var rest := buffer[k + 1..];
      assert (buffer + text)[..k] == buffer[..k] && (buffer + text)[k + 1..] == rest + text;
      assert Lines(buffer + text) == [buffer[..k]] + Lines(rest + text);
      var payload := Payload(ps.protocol, buffer[..k]);
      if payload.None? {
        ChunkingIndependence(ps, rest, chunks, p, finish);
      } else {
        var (p', r) := ps.parse(p, payload.value);
        var ds := if r.Some? then r.value else if finish then ps.finish(p') else [];
        ChunkingIndependence(ps, rest, chunks, p', finish && r.Some?);
        GoodConcat(Deltas(ds), Emits(ps, rest, chunks, p', finish && r.Some?));
        GoodDeltas(ds);
      }
    case None =>
      if chunks == [] {
        assert buffer + text == buffer;
        GoodDeltas(ps.finish(p));
      } else if chunks[0].Data? {
        assert buffer + text == (buffer + chunks[0].text) + TextOf(chunks[1..]);
        ChunkingIndependence(ps, buffer + chunks[0].text, chunks[1..], p, finish);
      } else {
        assert text == TextOf(chunks[1..]);
        ChunkingIndependence(ps, buffer, chunks[1..], p, finish);
        GoodConcat([Failure(chunks[0].error)], Emits(ps, buffer, chunks[1..], p, finish));
      }
  }

  /** The read errors among the items, and among the chunks. */
  function Failures<D>(items: seq<Item<D>>): seq<string> {
    if items == [] then []
    else (if items[0].Failure? then [items[0].error] else []) + Failures(items[1..])
  }

  function ErrorsOf(chunks: seq<Chunk>): seq<string> {
    if chunks == [] then []
    else (if chunks[0].Broken? then [chunks[0].error] else []) + ErrorsOf(chunks[1..])
  }

  lemma {:induction false} DeltasDoNotFail<D>(ds: seq<D>, items: seq<Item<D>>)
    ensures Failures(Deltas(ds) + items) == Failures(items)
    decreases |ds|
  {
    if ds == [] {
      assert Deltas(ds) + items == items;
    } else {
      assert (Deltas(ds) + items)[1..] == Deltas(ds[1..]) + items;
      DeltasDoNotFail(ds[1..], items);
    }
  }

  /** The parser never signals an end. */
  ghost predicate Endless<P(!new), D>(ps: Parser<P, D>) {
    forall p, data :: ps.parse(p, data).1.Some?
  }

  /** Read errors are passed on in order, and all of them unless the parser ends the stream. */
  lemma {:induction false} ErrorsArePassedOn<P(!new), D>(
    ps: Parser<P, D>, buffer: string, chunks: seq<Chunk>, p: P, finish: bool)
    ensures Failures(Emits(ps, buffer, chunks, p, finish)) <= ErrorsOf(chunks)
    ensures Endless(ps) ==> Failures(Emits(ps, buffer, chunks, p, finish)) == ErrorsOf(chunks)
    decreases |chunks|, |buffer|
  {
    match Find(buffer, '\n')
    case Some(k) =>
      var rest := buffer[k + 1..];
      var payload := Payload(ps.protocol, buffer[..k]);
      if payload.None? {
        ErrorsArePassedOn(ps, rest, chunks, p, finish);
      } else {
        var (p', r) := ps.parse(p, payload.value);
        var ds := if r.Some? then r.value else if finish then ps.finish(p') else [];
        ErrorsArePassedOn(ps, rest, chunks, p', finish && r.Some?);
        DeltasDoNotFail(ds, Emits(ps, rest, chunks, p', finish && r.Some?));
      }
    case None =>
      if chunks == [] {
        DeltasDoNotFail(ps.finish(p), []);
        assert Deltas(ps.finish(p)) + [] == Deltas(ps.finish(p));
      } else if chunks[0].Data? {
        ErrorsArePassedOn(ps, buffer + chunks[0].text, chunks[1..], p, finish);
      } else {
        var more := Emits(ps, buffer, chunks[1..], p, finish);
        ErrorsArePassedOn(ps, buffer, chunks[1..], p, finish);
        assert ([Failure(chunks[0].error)] + more)[1..] == more;
      }
  }

  // ---- Against a batch reading of the lines ----

  /** Parse each line in order up to the end signal, then `on_finish`. */
  function Batch<P, D>(ps: Parser<P, D>, lines: seq<string>, p: P): seq<D> {
    if lines == [] then ps.finish(p)
    else
      match Payload(ps.protocol, lines[0])
      case None => Batch(ps, lines[1..], p)
      case Some(data) =>
        var (p', r) := ps.parse(p, data);
        if r.None? then ps.finish(p') else r.value + Batch(ps, lines[1..], p')
  }

  /** The parser state at the end signal and the lines after it, if the signal comes. */
  function Signal<P, D>(ps: Parser<P, D>, lines: seq<string>, p: P): Option<(P, seq<string>)> {
    if lines == [] then None
    else
      match Payload(ps.protocol, lines[0])
      case None => Signal(ps, lines[1..], p)
      case Some(data) =>
        var (p', r) := ps.parse(p, data);
        if r.None? then Some((p', lines[1..])) else Signal(ps, lines[1..], p')
  }

  /** What the stream goes on to emit: after a signal whose `on_finish` gave deltas, later lines are parsed too. */
  function Overrun<P, D>(ps: Parser<P, D>, lines: seq<string>, p: P): seq<D> {
    match Signal(ps, lines, p)
    case None => []
    case Some((p', rest)) => if ps.finish(p') == [] then [] else LineEmits(ps, rest, p', false)
  }

  lemma {:induction false} BatchThenOverrun<P, D>(ps: Parser<P, D>, lines: seq<string>, p: P)
    ensures LineEmits(ps, lines, p, true) == Batch(ps, lines, p) + Overrun(ps, lines, p)
    decreases |lines|
  {
    if lines != [] {
      var payload := Payload(ps.protocol, lines[0]);
      if payload.None? {
        BatchThenOverrun(ps, lines[1..], p);
      } else {
        var (p', r) := ps.parse(p, payload.value);
        if r.Some? {
          BatchThenOverrun(ps, lines[1..], p');
        }
      }
    }
  }

  predicate AllSkipped(protocol: Protocol, lines: seq<string>) {
    forall i :: 0 <= i < |lines| ==> Payload(protocol, lines[i]).None?
  }

  lemma {:induction false} SkippedLinesEmitNothing<P, D>(ps: Parser<P, D>, lines: seq<string>, p: P)
    requires AllSkipped(ps.protocol, lines)
    ensures LineEmits(ps, lines, p, false) == []
    decreases |lines|
  {
    if lines != [] { SkippedLinesEmitNothing(ps, lines[1..], p); }
  }

  /**
   For every cut of a text, the deltas begin with the batch result; they are the batch result
   when there is no end signal, when `on_finish` gives nothing, or when no payload line follows.
   */
  lemma StreamRefinesBatch<P, D>(ps: Parser<P, D>, chunks: seq<Chunk>, p: P)
    ensures var lines := Lines(TextOf(chunks));
            var emitted := Good(Emits(ps, "", chunks, p, true));
            var signal := Signal(ps, lines, p);
            && Batch(ps, lines, p) <= emitted
            && emitted == Batch(ps, lines, p) + Overrun(ps, lines, p)
            && (signal.None? || ps.finish(signal.value.0) == [] || AllSkipped(ps.protocol, signal.value.1) ==>
                  emitted == Batch(ps, lines, p))
  {
    var lines := Lines(TextOf(chunks));
    assert "" + TextOf(chunks) == TextOf(chunks);
    ChunkingIndependence(ps, "", chunks, p, true);
    BatchThenOverrun(ps, lines, p);
    var signal := Signal(ps, lines, p);
    if signal.Some? && AllSkipped(ps.protocol, signal.value.1) {
      SkippedLinesEmitNothing(ps, signal.value.1, signal.value.0);
    }
  }

  // ---- What the provider sent is what the parser gets ----

  /** A payload as the provider frames it: an event and a blank line, or a line of its own. */
  function Frame(protocol: Protocol, data: string): string {
    match protocol
    case Sse => "data: " + data + "\n" + "\n"
    case NdJson => data + "\n"
  }

  function Framed(protocol: Protocol, payloads: seq<string>): string {
    if payloads == [] then "" else Frame(protocol, payloads[0]) + Framed(protocol, payloads[1..])
  }

  predicate OneLine(data: string) {
    data != "" && Trimmed(data) && '\n' !in data
  }

  /** The parser fed with the payloads themselves, as long as it is asked. */
  function Fed<P, D>(ps: Parser<P, D>, payloads: seq<string>, p: P, finish: bool): seq<D> {
    if payloads == [] then (if finish then ps.finish(p) else [])
    else
      var (p', r) := ps.parse(p, payloads[0]);
      if r.Some? then r.value + Fed(ps, payloads[1..], p', finish)
      else if !finish || ps.finish(p') == [] then []
      else ps.finish(p') + Fed(ps, payloads[1..], p', false)
  }

  lemma PayloadOfFrame(data: string)
    requires OneLine(data)
    ensures Payload(Sse, "data: " + data) == Some(data) && Payload(NdJson, data) == Some(data)
    ensures Payload(Sse, "") == None && Payload(NdJson, "") == None
  {
    var line := "data: " + data;
    assert line[0] == 'd' && line[|line| - 1] == data[|data| - 1];
    TrimmedStays(line);
    TrimmedStays(data);
    assert line[6..] == data && line[..6] == "data: ";
  }

  lemma LinesFirst(first: string, rest: string)
    requires '\n' !in first
    ensures Lines(first + "\n" + rest) == [first] + Lines(rest)
  {
    var text := first + "\n" + rest;
    assert text[|first|] == '\n';
    FindIs(text, '\n', |first|);
    assert text[..|first|] == first && text[|first| + 1..] == rest;
  }

  lemma Regroup(a: string, b: string, c: string, d: string)
    ensures a + b + c + d == a + b + (c + d)
  {
  }

  lemma LinesOfEvent(data: string, rest: string)
    requires OneLine(data)
    ensures Lines(Frame(Sse, data) + rest) == ["data: " + data] + ([""] + Lines(rest))
  {
    var line := "data: " + data;
    Regroup(line, "\n", "\n", rest);
    LinesFirst(line, "\n" + rest);
    assert "" + "\n" + rest == "\n" + rest;
    LinesFirst("", rest);
  }

  lemma BlankLineIsSkipped<P, D>(ps: Parser<P, D>, lines: seq<string>, p: P, finish: bool)
    ensures LineEmits(ps, [""] + lines, p, finish) == LineEmits(ps, lines, p, finish)
  {
    assert ([""] + lines)[1..] == lines;
  }

  /** What a payload in front of other lines leads to. */
  function FedThen<P, D>(ps: Parser<P, D>, data: string, lines: seq<string>, p: P, finish: bool): seq<D> {
    var (p', r) := ps.parse(p, data);
    if r.Some? then r.value + LineEmits(ps, lines, p', finish)
    else if !finish || ps.finish(p') == [] then []
    else ps.finish(p') + LineEmits(ps, lines, p', false)
  }

  lemma LineFeeds<P, D>(ps: Parser<P, D>, line: string, data: string, lines: seq<string>, p: P, finish: bool)
    requires Payload(ps.protocol, line) == Some(data)
    ensures LineEmits(ps, [line] + lines, p, finish) == FedThen(ps, data, lines, p, finish)
  {
    var all := [line] + lines;
    assert all != [] && all[0] == line && all[1..] == lines;
    var (p', r) := ps.parse(p, data);
    if r.None? {
      var last := if finish then ps.finish(p') else [];
      assert LineEmits(ps, all, p, finish) == if last == [] then [] else last + LineEmits(ps, lines, p', false);
    }
  }

  lemma FrameFeeds<P, D>(ps: Parser<P, D>, data: string, rest: string, p: P, finish: bool)
    requires OneLine(data)
    ensures LineEmits(ps, Lines(Frame(ps.protocol, data) + rest), p, finish)
            == FedThen(ps, data, Lines(rest), p, finish)
  {
    PayloadOfFrame(data);
    match ps.protocol
    case Sse =>
      LinesOfEvent(data, rest);
      LineFeeds(ps, "data: " + data, data, [""] + Lines(rest), p, finish);
      var (p', r) := ps.parse(p, data);
      BlankLineIsSkipped(ps, Lines(rest), p', finish);
      BlankLineIsSkipped(ps, Lines(rest), p', false);
    case NdJson =>
      LinesFirst(data, rest);
      LineFeeds(ps, data, data, Lines(rest), p, finish);
  }

  lemma {:induction false} FramedLinesFeed<P, D>(ps: Parser<P, D>, payloads: seq<string>, p: P, finish: bool)
    requires forall i :: 0 <= i < |payloads| ==> OneLine(payloads[i])
    ensures LineEmits(ps, Lines(Framed(ps.protocol, payloads)), p, finish) == Fed(ps, payloads, p, finish)
    decreases |payloads|
  {
    if payloads != [] {
      var data, rest := payloads[0], payloads[1..];
      var (p', r) := ps.parse(p, data);
      FrameFeeds(ps, data, Framed(ps.protocol, rest), p, finish);
      FramedLinesFeed(ps, rest, p', finish);
      FramedLinesFeed(ps, rest, p', false);
    }
  }

  /** However the framed payloads are cut into chunks, the parser is fed exactly these payloads. */
  lemma PayloadsReachTheParser<P, D>(ps: Parser<P, D>, payloads: seq<string>, chunks: seq<Chunk>, p: P)
    requires forall i :: 0 <= i < |payloads| ==> OneLine(payloads[i])
    requires TextOf(chunks) == Framed(ps.protocol, payloads)
    ensures Good(Emits(ps, "", chunks, p, true)) == Fed(ps, payloads, p, true)
  {
    assert "" + TextOf(chunks) == TextOf(chunks);
    ChunkingIndependence(ps, "", chunks, p, true);
    FramedLinesFeed(ps, payloads, p, true);
  }

  /** A line of a server-sent event that is not data reaches no parser: comments, event names, ids. */
  lemma OtherFieldsAreSkipped(raw: string)
    requires |Trim(raw)| < 6 || Trim(raw)[..6] != "data: "
    ensures Payload(Sse, raw) == None
  {
  }

  /** A line after the end signal is still parsed when `on_finish` emitted something. */
  lemma OverrunHappens()
    ensures var ps: Parser<int, int> := Parser(NdJson, (p, s) => (p, if s == "." then None else Some([1])), p => [0]);
            LineEmits(ps, [".", "x"], 0, true) == [0, 1] && Batch(ps, [".", "x"], 0) == [0]
  {
    var ps: Parser<int, int> := Parser(NdJson, (p, s) => (p, if s == "." then None else Some([1])), p => [0]);
    assert [".", "x"][1..] == ["x"] && ["x"][1..] == [];
    assert Payload(NdJson, ".") == Some(".") && Payload(NdJson, "x") == Some("x");
    assert LineEmits(ps, ["x"], 0, false) == [1] + LineEmits(ps, [], 0, false);
  }
}
