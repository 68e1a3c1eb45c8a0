/**
 What the layered index keeps of a conversation, in terms of the messages: how they are chunked,
 what text the archives hold, and what nodes and root say about it.
 */
module LayeredText {
  import opened Prelude
  import opened LayeredIndex

  function Joined(texts: seq<string>): string {
    if texts == [] then "" else Joined(texts[..|texts| - 1]) + texts[|texts| - 1]
  }

  lemma {:induction false} JoinedConcat(a: seq<string>, b: seq<string>)
    ensures Joined(a + b) == Joined(a) + Joined(b)
    decreases |b|
  {
    if b == [] {
      assert a + b == a;
    } else {
      assert (a + b)[..|a + b| - 1] == a + b[..|b| - 1];
      JoinedConcat(a, b[..|b| - 1]);
    }
  }

  /** The line of each message. */
  function Spelled(messages: seq<Message>): seq<string> {
    seq(|messages|, i requires 0 <= i < |messages| => "[" + messages[i].role + "]: " + messages[i].content + "\n")
  }

  lemma {:induction false} TranscriptIsLines(chunk: seq<Message>)
    ensures Transcript(chunk) == Joined(Spelled(chunk))
  {
    if chunk != [] {
      var front, m := chunk[..|chunk| - 1], chunk[|chunk| - 1];
      TranscriptIsLines(front);
      assert Spelled(chunk)[..|chunk| - 1] == Spelled(front);
      assert Line(m) == "[" + m.role + "]: " + m.content + "\n";
    }
  }

  // ---- Chunks ----

  function Flat(chunks: seq<seq<Message>>): seq<Message> {
    if chunks == [] then [] else chunks[0] + Flat(chunks[1..])
  }

  /** The chunks are the messages in order, all but the last of full size. */
  lemma {:induction false} ChunksAreTheMessages(messages: seq<Message>, size: nat)
    requires size > 0
    ensures var chunks := ChunkMessages(messages, size);
            && Flat(chunks) == messages && (forall i :: 0 <= i < |chunks| - 1 ==> |chunks[i]| == size)
            && forall i :: 0 <= i < |chunks| ==> 0 < |chunks[i]| <= size
    decreases |messages|
  {
    if |messages| > size {
      ChunksAreTheMessages(messages[size..], size);
      var rest := ChunkMessages(messages[size..], size);
      assert ([messages[..size]] + rest)[1..] == rest;
      assert messages == messages[..size] + messages[size..];
    } else if messages != [] {
      assert Flat([messages]) == messages + [];
    }
  }

  /** The messages from chunk `d` on. */
  function Skipped(messages: seq<Message>, size: nat, d: nat): seq<Message> {
    if d == 0 then messages else if |messages| <= size then [] else Skipped(messages[size..], size, d - 1)
  }

  lemma {:induction false} SkippedIs(messages: seq<Message>, size: nat, d: nat)
    ensures Skipped(messages, size, d) == if d * size <= |messages| then messages[d * size..] else []
    decreases d
  {
    if d == 0 {
      assert d * size == 0;
    } else if |messages| <= size {
      Monotone(1, d, size);
      if d * size <= |messages| { assert messages[d * size..] == []; }
    } else {
      SkippedIs(messages[size..], size, d - 1);
      SkipTwice(messages, size, (d - 1) * size, d * size);
    }
  }

  lemma SkipTwice(messages: seq<Message>, i: nat, j: nat, k: nat)
    requires i <= |messages| && k == i + j
    ensures if k <= |messages| then j <= |messages[i..]| && messages[i..][j..] == messages[k..] else j > |messages[i..]|
  {
  }

  lemma Monotone(a: nat, b: nat, c: nat)
    requires a <= b
    ensures a * c <= b * c
  {
  }

  lemma {:induction false} ChunksFrom(messages: seq<Message>, size: nat, d: nat)
    requires size > 0 && d <= |ChunkMessages(messages, size)|
    ensures Flat(ChunkMessages(messages, size)[d..]) == Skipped(messages, size, d)
    decreases d
  {
    var chunks := ChunkMessages(messages, size);
    if d == 0 {
      ChunksAreTheMessages(messages, size);
      assert chunks[0..] == chunks;
    } else if |messages| <= size {
      assert chunks[d..] == [];
    } else {
      ChunksFrom(messages[size..], size, d - 1);
      assert chunks[d..] == ChunkMessages(messages[size..], size)[d - 1..];
    }
  }

  /** `n` chunks of `size` hold `total` messages, and fewer do not. */
  predicate Fills(n: nat, size: nat, total: nat) {
    n * size >= total && (n > 0 ==> (n - 1) * size < total)
  }

  lemma {:induction false} ChunkCount(messages: seq<Message>, size: nat)
    requires size > 0
    ensures Fills(|ChunkMessages(messages, size)|, size, |messages|)
    decreases |messages|
  {
    if |messages| > size {
      ChunkCount(messages[size..], size);
      var n := |ChunkMessages(messages[size..], size)|;
      assert (n + 1) * size == n * size + size && n * size == (n - 1) * size + size;
    }
  }

  // ---- What the archives hold ----

  function Transcripts(chunks: seq<seq<Message>>): seq<string> {
    seq(|chunks|, i requires 0 <= i < |chunks| => Transcript(chunks[i]))
  }

  /** Chunk by chunk or message by message, the transcripts hold the same lines. */
  lemma {:induction false} TranscriptsHoldLines(chunks: seq<seq<Message>>)
    ensures Joined(Transcripts(chunks)) == Joined(Spelled(Flat(chunks)))
  {
    if chunks != [] {
      var first, rest := chunks[0], chunks[1..];
      TranscriptsHoldLines(rest);
      TranscriptIsLines(first);
      assert Transcripts(chunks) == [Transcript(first)] + Transcripts(rest);
      JoinedConcat([Transcript(first)], Transcripts(rest));
      JoinedOne(Transcript(first));
      SpelledConcat(first, Flat(rest));
      JoinedConcat(Spelled(first), Spelled(Flat(rest)));
    }
  }

  lemma JoinedOne(text: string)
    ensures Joined([text]) == text
  {
    assert [text][..0] == [];
  }

  lemma SpelledConcat(a: seq<Message>, b: seq<Message>)
    ensures Spelled(a + b) == Spelled(a) + Spelled(b)
  {
  }

  ghost predicate Archived(nodes: seq<Node>, archives: map<string, Archive>) {
    forall k :: 0 <= k < |nodes| ==> nodes[k].content.id in archives
  }

  /** The transcripts archived for the nodes, in order. */
  ghost function Texts(nodes: seq<Node>, archives: map<string, Archive>): seq<string>
    requires Archived(nodes, archives)
  {
    seq(|nodes|, k requires 0 <= k < |nodes| => archives[nodes[k].content.id].transcript)
  }

  lemma ArchiveOfChunk(
    checksum: string -> string, texts: set<string>, n: Node, archives: map<string, Archive>, c: Chunk)
    requires NoCollisions(checksum, texts) && Covers(texts, archives) && c.transcript in texts
    requires NodeBacked(checksum, n, archives) && n.content.checksum == checksum(c.transcript)
    ensures archives[n.content.id].transcript == c.transcript
  {
    var t := archives[n.content.id].transcript;
    assert t in texts && NodeId(checksum(t)) == NodeId(checksum(c.transcript));
  }

  lemma KeptTexts(
    checksum: string -> string, texts: set<string>, chunks: seq<Chunk>, d: nat, nodes: seq<Node>,
    archives: map<string, Archive>)
    requires NoCollisions(checksum, texts) && Covers(texts, archives) && Requests(texts, chunks)
    requires Backed(checksum, nodes, archives) && NewestFrom(checksum, chunks, d, nodes)
    ensures Archived(nodes, archives)
    ensures forall k :: 0 <= k < |nodes| ==> Texts(nodes, archives)[k] == chunks[d + k].transcript
  {
    assert Archived(nodes, archives) by {
      forall k | 0 <= k < |nodes| ensures nodes[k].content.id in archives {
        assert NodeBacked(checksum, nodes[k], archives);
      }
    }
    forall k | 0 <= k < |nodes| ensures Texts(nodes, archives)[k] == chunks[d + k].transcript {
      assert NodeBacked(checksum, nodes[k], archives);
      assert StandsFor(checksum, nodes[k], chunks[d + k], |nodes| - 1 - k);
      ArchiveOfChunk(checksum, texts, nodes[k], archives, chunks[d + k]);
    }
  }

  lemma KeptTranscripts(
    checksum: string -> string, texts: set<string>, raw: seq<seq<Message>>, max: nat, nodes: seq<Node>,
    archives: map<string, Archive>)
    requires NoCollisions(checksum, texts) && Covers(texts, archives) && Requests(texts, FormatAll(raw))
    requires Backed(checksum, nodes, archives) && Newest(checksum, FormatAll(raw), max, nodes)
    ensures |nodes| == (if |raw| <= max then |raw| else max) && Archived(nodes, archives)
    ensures Texts(nodes, archives) == Transcripts(raw[|raw| - |nodes|..])
  {
    KeptTexts(checksum, texts, FormatAll(raw), Dropped(FormatAll(raw), max), nodes, archives);
  }

  lemma KeptLines(
    checksum: string -> string, texts: set<string>, messages: seq<Message>, size: nat, max: nat, nodes: seq<Node>,
    archives: map<string, Archive>)
    requires size > 0 && NoCollisions(checksum, texts) && Covers(texts, archives)
    requires var chunks := FormatAll(ChunkMessages(messages, size));
             Requests(texts, chunks) && Backed(checksum, nodes, archives) && Newest(checksum, chunks, max, nodes)
    ensures var n := |ChunkMessages(messages, size)|;
            && |nodes| == (if n <= max then n else max) && Archived(nodes, archives)
            && Joined(Texts(nodes, archives)) == Joined(Spelled(Skipped(messages, size, n - |nodes|)))
  {
    var raw := ChunkMessages(messages, size);
    KeptTranscripts(checksum, texts, raw, max, nodes, archives);
    TranscriptsHoldLines(raw[|raw| - |nodes|..]);
    ChunksFrom(messages, size, |raw| - |nodes|);
  }

  /** The builds share one checksum function and ask for transcripts among the texts. */
  ghost predicate AllHash(builds: seq<Build>, checksum: string -> string, texts: set<string>) {
    forall k :: 0 <= k < |builds| ==> builds[k].tools.checksum == checksum && Requests(texts, Chunks(builds[k]))
  }

  /** What a successful build leaves after any others. */
  lemma RunLeaves(builds: seq<Build>, b: Build, texts: set<string>)
    requires NoCollisions(b.tools.checksum, texts) && AllHash(builds + [b], b.tools.checksum, texts)
    requires Run(RunAll(EMPTY, builds), b).1.Ok?
    ensures var (s, r) := Run(RunAll(EMPTY, builds), b);
            && Requests(texts, Chunks(b)) && Covers(texts, s.archives)
            && Backed(b.tools.checksum, r.value.nodes, s.archives)
            && Newest(b.tools.checksum, Chunks(b), b.cfg.maxArchives, r.value.nodes)
  {
    var before := RunAll(EMPTY, builds);
    Faithful(b.tools.checksum, texts);
    assert (builds + [b])[|builds|] == b;
    forall k | 0 <= k < |builds|
      ensures builds[k].tools.checksum == b.tools.checksum && Requests(texts, Chunks(builds[k]))
    {
      assert (builds + [b])[k] == builds[k];
    }
    ArchivesBackTheIndex(builds, b.tools.checksum, texts);
    RunKeepsBacking(before, b, Chunks(b), texts);
    BuildKeepsNewest(before, b, Chunks(b));
  }

  lemma Faithful(checksum: string -> string, texts: set<string>)
    requires NoCollisions(checksum, texts)
    ensures IdsFaithful(checksum, texts)
  {
  }

  /**
   Over whatever earlier builds left, a successful build leaves archives that together hold the
   line of every message, in order, except those of the oldest chunks beyond `maxArchives`.
   */
  lemma ArchivesHoldTheMessages(builds: seq<Build>, b: Build, texts: set<string>, size: nat)
    requires NoCollisions(b.tools.checksum, texts) && AllHash(builds + [b], b.tools.checksum, texts)
    requires size == (if b.cfg.archiveChunkSize > 0 then b.cfg.archiveChunkSize else 8)
    requires Run(RunAll(EMPTY, builds), b).1.Ok?
    ensures var (s, r) := Run(RunAll(EMPTY, builds), b);
            var n, kept := |ChunkMessages(b.messages, size)|, |r.value.nodes|;
            && kept == (if n <= b.cfg.maxArchives then n else b.cfg.maxArchives)
            && Archived(r.value.nodes, s.archives)
            && Joined(Texts(r.value.nodes, s.archives)) == Joined(Spelled(Skipped(b.messages, size, n - kept)))
  {
    var (s, r) := Run(RunAll(EMPTY, builds), b);
    RunLeaves(builds, b, texts);
    KeptLines(b.tools.checksum, texts, b.messages, size, b.cfg.maxArchives, r.value.nodes, s.archives);
  }

  /** In particular, with room for all chunks no message is lost. */
  lemma NoMessageIsLost(builds: seq<Build>, b: Build, texts: set<string>, size: nat)
    requires NoCollisions(b.tools.checksum, texts) && AllHash(builds + [b], b.tools.checksum, texts)
    requires size == (if b.cfg.archiveChunkSize > 0 then b.cfg.archiveChunkSize else 8)
    requires |b.messages| <= b.cfg.maxArchives * size && Run(RunAll(EMPTY, builds), b).1.Ok?
    ensures var (s, r) := Run(RunAll(EMPTY, builds), b);
            && Archived(r.value.nodes, s.archives)
            && Joined(Texts(r.value.nodes, s.archives)) == Joined(Spelled(b.messages))
  {
    ArchivesHoldTheMessages(builds, b, texts, size);
    RoomForAll(b.messages, size, b.cfg.maxArchives);
  }

  lemma RoomForAll(messages: seq<Message>, size: nat, max: nat)
    requires size > 0 && |messages| <= max * size
    ensures |ChunkMessages(messages, size)| <= max
  {
    ChunkCount(messages, size);
    var n := |ChunkMessages(messages, size)|;
    if n > max { Monotone(max, n - 1, size); }
  }

  // ---- What nodes and root say ----

  /** What the summarizer, the estimate and the extractor say of the text. */
  ghost predicate Tells(tools: Tools, cfg: Config, c: Content, text: string) {
    && c.checksum == tools.checksum(text) && c.id <= c.checksum
    && |c.id| == (if |c.checksum| < 12 then |c.checksum| else 12)
    && tools.summarize(text, cfg.l1TargetTokens) == Ok(c.summary)
    && tools.summarize(c.summary, cfg.l0TargetTokens) == Ok(c.abstractText)
    && c.keywords == tools.keywords(text, 10) && c.resourcePath == "archives/archive_" + c.id + ".json"
    && c.transcriptTokens == tools.estimate(text) && c.summaryTokens == tools.estimate(c.summary)
    && c.abstractTokens == tools.estimate(c.abstractText)
  }

  /** After any builds, each saved node tells of the transcript in its archive. */
  lemma NodesTellTheirArchives(builds: seq<Build>, tools: Tools, cfg: Config, texts: set<string>, k: nat)
    requires AllAdmissible(builds, tools, cfg, Uncounted, texts) && k < |Saved(RunAll(EMPTY, builds))|
    ensures var s := RunAll(EMPTY, builds);
            var c := Saved(s)[k].content;
            c.id in s.archives && Tells(tools, cfg, c, s.archives[c.id].transcript)
  {
    RunAllKeepsDerived(builds, tools, cfg, Uncounted, texts);
    var s := RunAll(EMPTY, builds);
    assert NodeDerived(tools, cfg, Uncounted, Saved(s)[k], s.archives);
  }

  function AbstractLines(nodes: seq<Node>): seq<string> {
    seq(|nodes|, k requires 0 <= k < |nodes| => nodes[k].content.abstractText + "\n")
  }

  lemma {:induction false} AbstractsAreLines(nodes: seq<Node>)
    ensures Abstracts(nodes) == Joined(AbstractLines(nodes))
  {
    if nodes != [] {
      AbstractsAreLines(nodes[..|nodes| - 1]);
      assert AbstractLines(nodes)[..|nodes| - 1] == AbstractLines(nodes[..|nodes| - 1]);
    }
  }

  /** The root of a successful build tells of the abstracts of its nodes, and the index keeps its birth date. */
  lemma RootTellsItsNodes(s: State, b: Build)
    requires Run(s, b).1.Ok?
    ensures var index := Run(s, b).1.value;
            var root, all := index.root, Joined(AbstractLines(index.nodes));
            && b.tools.summarize(all, b.cfg.l1TargetTokens) == Ok(root.summary)
            && b.tools.summarize(root.summary, b.cfg.l0TargetTokens) == Ok(root.abstractText)
            && root.keywords == b.tools.keywords(all, 15) && |root.childIds| == |index.nodes|
            && (forall k :: 0 <= k < |index.nodes| ==> root.childIds[k] == index.nodes[k].content.id)
            && index.updatedAt == b.now
            && index.createdAt == (if s.index.Some? then s.index.value.createdAt else b.now)
  {
    AbstractsAreLines(Run(s, b).1.value.nodes);
  }

  /** A node is from this build, or a saved one of which only rank and update time changed. */
  ghost predicate Dated(saved: seq<Node>, now: nat, n: Node) {
    && n.updatedAt == now
    && (n.createdAt == now || exists m :: m in saved && n == m.(recencyRank := n.recencyRank, updatedAt := now))
  }

  ghost predicate AllDated(saved: seq<Node>, now: nat, r: Result<seq<Node>, Error>) {
    r.Ok? ==> forall n :: n in r.value ==> Dated(saved, now, n)
  }

  lemma TakeIsDated(saved: seq<Node>, b: Build, p: Progress, c: Chunk, rank: nat, fails: bool)
    requires p.nodes.Ok? && AllDated(saved, b.now, p.nodes)
    ensures AllDated(saved, b.now, Take(Cache(saved), b, p, c.transcript, c.count, rank, fails).nodes)
  {
  }

  lemma NodesAreDated(s: State, b: Build)
    requires Run(s, b).1.Ok?
    ensures forall n :: n in Run(s, b).1.value.nodes ==> Dated(Saved(s), b.now, n)
  {
    var chunks := Chunks(b);
    StepsAreDated(s, b, chunks);
    RunOkMeans(s, b, chunks);
  }

  lemma StepsAreDated(s: State, b: Build, chunks: seq<Chunk>)
    ensures AllDated(Saved(s), b.now, Steps(s, b, chunks, |chunks|).nodes)
  {
    var inv := (p: Progress) => AllDated(Saved(s), b.now, p.nodes);
    forall p: Progress, k: nat | k < |chunks| && inv(p) ensures inv(Next(Saved(s), b, chunks, p, k)) {
      if p.nodes.Ok? {
        NextIsTake(Saved(s), b, chunks, p, k);
        TakeIsDated(Saved(s), b, p, chunks[k], |chunks| - 1 - k, b.faults.write(k));
      }
    }
    StepsInvariant(s, b, chunks, inv, |chunks|);
  }

  // ---- Builds that fail ----

  ghost predicate Answering(b: Build) {
    forall t, n :: b.tools.summarize(t, n).Ok?
  }

  lemma StepsGoOn(s: State, b: Build, chunks: seq<Chunk>)
    requires Answering(b) && forall k :: 0 <= k < |chunks| ==> !b.faults.write(k)
    ensures Steps(s, b, chunks, |chunks|).nodes.Ok?
  {
    var inv := (p: Progress) => p.nodes.Ok?;
    forall p: Progress, k: nat | k < |chunks| && inv(p) ensures inv(Next(Saved(s), b, chunks, p, k)) {
      NextIsTake(Saved(s), b, chunks, p, k);
    }
    StepsInvariant(s, b, chunks, inv, |chunks|);
  }

  /** A build succeeds if neither the store nor the summarizer fails. */
  lemma HealthyBuildSucceeds(s: State, b: Build)
    requires Answering(b) && !b.faults.load && !b.faults.save
    requires forall k :: 0 <= k < |Chunks(b)| ==> !b.faults.write(k)
    ensures Run(s, b).1.Ok?
  {
    StepsGoOn(s, b, Chunks(b));
  }

  /** A build that fails leaves the saved index alone, and one that cannot read or save it fails. */
  lemma FailedBuildKeepsIndex(s: State, b: Build)
    ensures var (s', r) := Run(s, b);
            && (r.Err? ==> s'.index == s.index) && (b.faults.load ==> s' == s && r == Err(StoreError))
            && (b.faults.save ==> r.Err?) && (r.Ok? ==> s'.index == Some(r.value))
  {
  }

  lemma TakeWithoutWriting(saved: seq<Node>, b: Build, p: Progress, c: Chunk, rank: nat)
    requires p.nodes.Ok?
    ensures var p' := Take(Cache(saved), b, p, c.transcript, c.count, rank, true);
            && p'.archives == p.archives
            && (b.tools.checksum(c.transcript) !in Cache(saved) ==> p'.nodes.Err?)
  {
  }

  lemma NextWithoutWriting(saved: seq<Node>, b: Build, chunks: seq<Chunk>, p: Progress, k: nat)
    requires k < |chunks| && b.faults.write(k)
    ensures var p' := Next(saved, b, chunks, p, k);
            && p'.archives == p.archives
            && (b.tools.checksum(chunks[k].transcript) !in Cache(saved) ==> p'.nodes.Err?)
  {
    if p.nodes.Ok? {
      NextIsTake(saved, b, chunks, p, k);
      TakeWithoutWriting(saved, b, p, chunks[k], |chunks| - 1 - k);
    }
  }

  lemma StepsWithoutWriting(s: State, b: Build, chunks: seq<Chunk>)
    requires forall k :: b.faults.write(k)
    ensures Steps(s, b, chunks, |chunks|).archives == s.archives
  {
    var inv := (p: Progress) => p.archives == s.archives;
    forall p: Progress, k: nat | k < |chunks| && inv(p) ensures inv(Next(Saved(s), b, chunks, p, k)) {
      NextWithoutWriting(Saved(s), b, chunks, p, k);
    }
    StepsInvariant(s, b, chunks, inv, |chunks|);
  }

  lemma NewChunkFails(s: State, b: Build, chunks: seq<Chunk>, k: nat)
    requires k < |chunks| && b.faults.write(k) && b.tools.checksum(chunks[k].transcript) !in Cache(Saved(s))
    ensures Steps(s, b, chunks, |chunks|).nodes.Err?
  {
    NextWithoutWriting(Saved(s), b, chunks, Steps(s, b, chunks, k), k);
    assert Steps(s, b, chunks, k + 1) == Next(Saved(s), b, chunks, Steps(s, b, chunks, k), k);
    ErrorsStick(s, b, chunks, k + 1, |chunks|);
  }

  /** If no archive can be written none appears, and a build with anything new to archive fails. */
  lemma NothingWritten(s: State, b: Build)
    requires forall k :: b.faults.write(k)
    ensures forall id :: id in Run(s, b).0.archives ==> id in s.archives && Run(s, b).0.archives[id] == s.archives[id]
    ensures (exists k :: 0 <= k < |Chunks(b)| && b.tools.checksum(Chunks(b)[k].transcript) !in Cache(Saved(s))) ==>
              Run(s, b).1.Err?
  {
    var chunks := Chunks(b);
    StepsWithoutWriting(s, b, chunks);
    if k: nat :| k < |chunks| && b.tools.checksum(chunks[k].transcript) !in Cache(Saved(s)) {
      NewChunkFails(s, b, chunks, k);
    }
  }
}
