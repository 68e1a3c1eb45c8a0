/**
 The layered context index of one session: transcripts are chunked, summarised and cached by
 checksum, and their archives kept beside the saved index.  The summarizer, the keyword
 extractor, the checksum and the token estimate are parameters; store faults are inputs.
 */
module LayeredIndex {
  import opened Prelude

  datatype Message = Message(role: string, content: string)

  datatype Config = Config(l0TargetTokens: nat, l1TargetTokens: nat, maxArchives: nat, archiveChunkSize: nat)

  datatype Error = StoreError | SummarizerError(message: string)

  datatype Tools = Tools(
    summarize: (string, nat) -> Result<string, string>, keywords: (string, nat) -> seq<string>,
    checksum: string -> string, estimate: string -> nat)

  /** The part of a node that its transcript determines. */
  datatype Content = Content(
    id: string, abstractText: string, summary: string, resourcePath: string, checksum: string,
    keywords: seq<string>, abstractTokens: nat, summaryTokens: nat, transcriptTokens: nat)

  datatype Node = Node(content: Content, messageCount: nat, recencyRank: nat, createdAt: nat, updatedAt: nat)

  datatype Root = Root(abstractText: string, summary: string, keywords: seq<string>, childIds: seq<string>)

  datatype Index = Index(root: Root, nodes: seq<Node>, createdAt: nat, updatedAt: nat)

  datatype Archive = Archive(nodeId: string, transcript: string)

  /** The session's directory: the saved index and the archive files by node id. */
  datatype State = State(index: Option<Index>, archives: map<string, Archive>)

  /** Which store operations fail in one build; `stuck` are the files cleanup does not manage to remove. */
  datatype Faults = Faults(load: bool, write: nat -> bool, save: bool, stuck: set<string>)

  datatype Build = Build(tools: Tools, cfg: Config, messages: seq<Message>, now: nat, faults: Faults)

  // ---- Chunks, transcripts, nodes ----

  function ChunkSize(cfg: Config): (n: nat)
    ensures n > 0
  {
    if cfg.archiveChunkSize == 0 then 8 else cfg.archiveChunkSize
  }

  function ChunkMessages(messages: seq<Message>, size: nat): (chunks: seq<seq<Message>>)
    requires size > 0
    ensures forall i :: 0 <= i < |chunks| ==> 0 < |chunks[i]| <= size
    decreases |messages|
  {
    if messages == [] then []
    else if |messages| <= size then [messages]
    else [messages[..size]] + ChunkMessages(messages[size..], size)
  }

  function Label(role: string): string {
    "[" + role + "]: "
  }

  function Line(m: Message): string {
    Label(m.role) + m.content + "\n"
  }

  function Transcript(chunk: seq<Message>): string {
    if chunk == [] then "" else Transcript(chunk[..|chunk| - 1]) + Line(chunk[|chunk| - 1])
  }

  function NodeId(checksum: string): string {
    if |checksum| <= 12 then checksum else checksum[..12]
  }

  function Derive(tools: Tools, cfg: Config, transcript: string): Result<Content, Error> {
    match tools.summarize(transcript, cfg.l1TargetTokens)
    case Err(e) => Err(SummarizerError(e))
    case Ok(summary) =>
      match tools.summarize(summary, cfg.l0TargetTokens)
      case Err(e) => Err(SummarizerError(e))
      case Ok(abs) =>
        var checksum := tools.checksum(transcript);
        Ok(Content(
             NodeId(checksum), abs, summary, "archives/archive_" + NodeId(checksum) + ".json", checksum,
             tools.keywords(transcript, 10), tools.estimate(abs), tools.estimate(summary), tools.estimate(transcript)))
  }

  function Abstracts(nodes: seq<Node>): string {
    if nodes == [] then ""
    else Abstracts(nodes[..|nodes| - 1]) + nodes[|nodes| - 1].content.abstractText + "\n"
  }

  function Ids(nodes: seq<Node>): seq<string> {
    seq(|nodes|, i requires 0 <= i < |nodes| => nodes[i].content.id)
  }

  function BuildRoot(tools: Tools, cfg: Config, nodes: seq<Node>): Result<Root, Error> {
    var all := Abstracts(nodes);
    match tools.summarize(all, cfg.l1TargetTokens)
    case Err(e) => Err(SummarizerError(e))
    case Ok(summary) =>
      match tools.summarize(summary, cfg.l0TargetTokens)
      case Err(e) => Err(SummarizerError(e))
      case Ok(abs) => Ok(Root(abs, summary, tools.keywords(all, 15), Ids(nodes)))
  }

  // ---- One build ----

  /** The checksum cache; of two nodes with one checksum the later wins. */
  function Cache(nodes: seq<Node>): (m: map<string, Node>)
    ensures forall c :: c in m ==> m[c] in nodes && m[c].content.checksum == c
    ensures forall n :: n in nodes ==> n.content.checksum in m
  {
    if nodes == [] then map[]
    else
      var last := nodes[|nodes| - 1];
      assert forall n :: n in nodes ==> n == last || n in nodes[..|nodes| - 1];
      Cache(nodes[..|nodes| - 1])[last.content.checksum := last]
  }

  function Saved(s: State): seq<Node> {
    if s.index.Some? then s.index.value.nodes else []
  }

  datatype Progress = Progress(archives: map<string, Archive>, nodes: Result<seq<Node>, Error>)

  /** A chunk as the indexer sees it once it is formatted. */
  datatype Chunk = Chunk(transcript: string, count: nat)

  function Format(chunk: seq<Message>): Chunk {
    Chunk(Transcript(chunk), |chunk|)
  }

  function FormatAll(raw: seq<seq<Message>>): seq<Chunk> {
    seq(|raw|, i requires 0 <= i < |raw| => Format(raw[i]))
  }

  function Chunks(b: Build): seq<Chunk> {
    FormatAll(ChunkMessages(b.messages, ChunkSize(b.cfg)))
  }

  /** What chunk `i` does: reuse the cached node, or derive a new one and write its archive. */
  function ChunkStep(saved: seq<Node>, b: Build, chunks: seq<Chunk>, p: Progress, i: nat): Progress
    requires i < |chunks| && p.nodes.Ok?
  {
    Take(Cache(saved), b, p, chunks[i].transcript, chunks[i].count, |chunks| - 1 - i, b.faults.write(i))
  }

  function Take(
    cache: map<string, Node>, b: Build, p: Progress, transcript: string, count: nat, rank: nat, writeFails: bool)
    : Progress
    requires p.nodes.Ok?
  {
    var checksum := b.tools.checksum(transcript);
    if checksum in cache then Reuse(cache[checksum], b, p, rank) else Fresh(b, p, transcript, count, rank, writeFails)
  }

  function Reuse(cached: Node, b: Build, p: Progress, rank: nat): Progress
    requires p.nodes.Ok?
  {
    p.(nodes := Ok(p.nodes.value + [cached.(recencyRank := rank, updatedAt := b.now)]))
  }

  function Fresh(b: Build, p: Progress, transcript: string, count: nat, rank: nat, writeFails: bool): Progress
    requires p.nodes.Ok?
  {
    match Derive(b.tools, b.cfg, transcript)
    case Err(e) => p.(nodes := Err(e))
    case Ok(content) =>
      if writeFails then p.(nodes := Err(StoreError))
      else Progress(p.archives[content.id := Archive(content.id, transcript)],
                    Ok(p.nodes.value + [Node(content, count, rank, b.now, b.now)]))
  }

  /** One step of the loop, errors passing through. */
  function Next(saved: seq<Node>, b: Build, chunks: seq<Chunk>, p: Progress, i: nat): Progress
    requires i < |chunks|
  {
    if p.nodes.Err? then p else ChunkStep(saved, b, chunks, p, i)
  }

  /** The archives and nodes after the first `i` chunks, stopping at the first error. */
  function Steps(s: State, b: Build, chunks: seq<Chunk>, i: nat): Progress
    requires i <= |chunks|
  {
    if i == 0 then Progress(s.archives, Ok([]))
    else Next(Saved(s), b, chunks, Steps(s, b, chunks, i - 1), i - 1)
  }

  function KeepLast(nodes: seq<Node>, max: nat): seq<Node> {
    if |nodes| > max then nodes[|nodes| - max..] else nodes
  }

  function Cleaned(archives: map<string, Archive>, ids: seq<string>, stuck: set<string>): map<string, Archive> {
    map id | id in archives && (id in ids || id in stuck) :: archives[id]
  }

  function MakeIndex(s: State, root: Root, nodes: seq<Node>, now: nat): Index {
    Index(root, nodes, if s.index.Some? then s.index.value.createdAt else now, now)
  }

  /** One call of `build_or_update`: the session directory afterwards, and what is returned. */
  function Run(s: State, b: Build): (State, Result<Index, Error>) {
    RunOn(s, b, Chunks(b))
  }

  function RunOn(s: State, b: Build, chunks: seq<Chunk>): (State, Result<Index, Error>) {
    if b.faults.load then (s, Err(StoreError))
    else
      var p := Steps(s, b, chunks, |chunks|);
      if p.nodes.Err? then (s.(archives := p.archives), Err(p.nodes.error))
      else Finish(s, b, p.archives, KeepLast(p.nodes.value, b.cfg.maxArchives))
  }

  /** Summarise the root, save the index, clean up. */
  function Finish(s: State, b: Build, archives: map<string, Archive>, nodes: seq<Node>): (State, Result<Index, Error>) {
    match BuildRoot(b.tools, b.cfg, nodes)
    case Err(e) => (s.(archives := archives), Err(e))
    case Ok(root) =>
      if b.faults.save then (s.(archives := archives), Err(StoreError))
      else
        var index := MakeIndex(s, root, nodes, b.now);
        (State(Some(index), Cleaned(archives, Ids(nodes), b.faults.stuck)), Ok(index))
  }

  // ---- The same as code ----

  class ArchiveStore {
    var index: Option<Index>
    var archives: map<string, Archive>

    function View(): State
      reads this
    {
      State(index, archives)
    }

    constructor ()
      ensures View() == State(None, map[])
    {
      index, archives := None, map[];
    }

    method WriteArchive(id: string, transcript: string)
      modifies this`archives
      ensures archives == old(archives)[id := Archive(id, transcript)]
    {
      archives := archives[id := Archive(id, transcript)];
    }

    method CleanupArchives(valid: seq<string>, stuck: set<string>)
      modifies this`archives
      ensures archives == Cleaned(old(archives), valid, stuck)
    {
      var entries := archives.Keys;
      while entries != {}
        invariant entries <= old(archives).Keys
        invariant archives.Keys == set id | id in old(archives) && (id in entries || id in valid || id in stuck)
        invariant forall id :: id in archives ==> archives[id] == old(archives)[id]
        decreases |entries|
      {
        var name :| name in entries;
        entries := entries - {name};
        if name !in valid && name !in stuck {
          archives := archives - {name};
        }
      }
    }
  }

  lemma {:induction false} ErrorsStick(s: State, b: Build, chunks: seq<Chunk>, i: nat, j: nat)
    requires i <= j <= |chunks| && Steps(s, b, chunks, i).nodes.Err?
    ensures Steps(s, b, chunks, j) == Steps(s, b, chunks, i)
    decreases j
  {
    if i < j { ErrorsStick(s, b, chunks, i, j - 1); }
  }

  lemma NextIsTake(saved: seq<Node>, b: Build, chunks: seq<Chunk>, p: Progress, i: nat)
    requires i < |chunks| && p.nodes.Ok?
    ensures Next(saved, b, chunks, p, i)
            == Take(Cache(saved), b, p, chunks[i].transcript, chunks[i].count, |chunks| - 1 - i, b.faults.write(i))
  {
  }

  /** The loop over the formatted chunks; archives are written as it goes and stay written on an error. */
  method BuildNodes(store: ArchiveStore, b: Build, chunks: seq<Chunk>) returns (r: Result<seq<Node>, Error>)
    modifies store`archives
    ensures Progress(store.archives, r) == Steps(old(store.View()), b, chunks, |chunks|)
  {
    var saved := if store.index.Some? then store.index.value.nodes else [];
    ghost var s := store.View();
    var nodes := [];
    for i := 0 to |chunks|
      invariant Steps(s, b, chunks, i) == Progress(store.archives, Ok(nodes))
    {
      r := BuildChunk(store, b, saved, chunks, nodes, i);
      assert Steps(s, b, chunks, i + 1) == Next(saved, b, chunks, Steps(s, b, chunks, i), i);
      if r.Err? {
        ErrorsStick(s, b, chunks, i + 1, |chunks|);
        return;
      }
      nodes := r.value;
    }
    return Ok(nodes);
  }

  method BuildChunk(store: ArchiveStore, b: Build, saved: seq<Node>, chunks: seq<Chunk>, nodes: seq<Node>, i: nat)
    returns (r: Result<seq<Node>, Error>)
    requires i < |chunks|
    modifies store`archives
    ensures Progress(store.archives, r) == Next(saved, b, chunks, Progress(old(store.archives), Ok(nodes)), i)
  {
    NextIsTake(saved, b, chunks, Progress(store.archives, Ok(nodes)), i);
    var transcript, rank := chunks[i].transcript, |chunks| - 1 - i;
    var checksum := b.tools.checksum(transcript);
    var cache := Cache(saved);
    if checksum in cache {
      return Ok(nodes + [cache[checksum].(recencyRank := rank, updatedAt := b.now)]);
    }
    var derived := Derive(b.tools, b.cfg, transcript);
    if derived.Err? {
      return Err(derived.error);
    }
    if b.faults.write(i) {
      return Err(StoreError);
    }
    store.WriteArchive(derived.value.id, transcript);
    return Ok(nodes + [Node(derived.value, chunks[i].count, rank, b.now, b.now)]);
  }

  method BuildOrUpdate(store: ArchiveStore, b: Build) returns (r: Result<Index, Error>)
    modifies store
    ensures (store.View(), r) == Run(old(store.View()), b)
  {
    if b.faults.load {
      return Err(StoreError);
    }
    var existing := store.index;
    var built := BuildNodes(store, b, Chunks(b));
    if built.Err? {
      return Err(built.error);
    }
    var nodes := built.value;
    if |nodes| > b.cfg.maxArchives {
      nodes := nodes[|nodes| - b.cfg.maxArchives..];
    }
    var root := BuildRoot(b.tools, b.cfg, nodes);
    if root.Err? {
      return Err(root.error);
    }
    var index := Index(root.value, nodes, if existing.Some? then existing.value.createdAt else b.now, b.now);
    if b.faults.save {
      return Err(StoreError);
    }
    store.index := Some(index);
    store.CleanupArchives(Ids(nodes), b.faults.stuck);
    return Ok(index);
  }

  // ---- Every saved node keeps its archive ----

  /** On these transcripts the 12-character id is as good as the whole checksum. */
  ghost predicate IdsFaithful(checksum: string -> string, texts: set<string>) {
    forall t, u :: t in texts && u in texts && NodeId(checksum(t)) == NodeId(checksum(u)) ==> checksum(t) == checksum(u)
  }

  ghost predicate NoCollisions(checksum: string -> string, texts: set<string>) {
    forall t, u :: t in texts && u in texts && NodeId(checksum(t)) == NodeId(checksum(u)) ==> t == u
  }

  ghost predicate Covers(texts: set<string>, archives: map<string, Archive>) {
    forall id :: id in archives ==> archives[id].transcript in texts
  }

  ghost predicate Requests(texts: set<string>, chunks: seq<Chunk>) {
    forall i :: 0 <= i < |chunks| ==> chunks[i].transcript in texts
  }

  ghost predicate NodeBacked(checksum: string -> string, n: Node, archives: map<string, Archive>) {
    && n.content.id == NodeId(n.content.checksum) && n.content.id in archives
    && checksum(archives[n.content.id].transcript) == n.content.checksum
  }

  ghost predicate Backed(checksum: string -> string, nodes: seq<Node>, archives: map<string, Archive>) {
    forall k :: 0 <= k < |nodes| ==> NodeBacked(checksum, nodes[k], archives)
  }

  lemma WriteKeepsBacking(
    checksum: string -> string, texts: set<string>, nodes: seq<Node>, archives: map<string, Archive>, t: string)
    requires IdsFaithful(checksum, texts) && Covers(texts, archives) && t in texts
    requires Backed(checksum, nodes, archives)
    ensures var id := NodeId(checksum(t));
            Backed(checksum, nodes, archives[id := Archive(id, t)]) && Covers(texts, archives[id := Archive(id, t)])
  {
  }

  /** What every chunk step keeps holds of the whole loop. */
  lemma {:induction false} StepsInvariant(s: State, b: Build, chunks: seq<Chunk>, inv: Progress -> bool, i: nat)
    requires i <= |chunks| && inv(Progress(s.archives, Ok([])))
    requires forall p: Progress, k: nat :: k < |chunks| && inv(p) ==> inv(Next(Saved(s), b, chunks, p, k))
    ensures inv(Steps(s, b, chunks, i))
  {
    if i > 0 { StepsInvariant(s, b, chunks, inv, i - 1); }
  }

  /** What the nodes built so far say about the chunks they stand for. */
  ghost predicate Describes(checksum: string -> string, chunks: seq<Chunk>, nodes: seq<Node>) {
    && |nodes| <= |chunks|
    && forall k :: 0 <= k < |nodes| ==> StandsFor(checksum, nodes[k], chunks[k], |chunks| - 1 - k)
  }

  lemma ChunkStepDescribes(saved: seq<Node>, b: Build, chunks: seq<Chunk>, p: Progress, i: nat)
    requires i < |chunks| && p.nodes.Ok? && |p.nodes.value| == i && Describes(b.tools.checksum, chunks, p.nodes.value)
    ensures var p' := ChunkStep(saved, b, chunks, p, i);
            p'.nodes.Ok? ==> |p'.nodes.value| == i + 1 && Describes(b.tools.checksum, chunks, p'.nodes.value)
  {
  }

  lemma {:induction false} StepsDescribe(s: State, b: Build, chunks: seq<Chunk>, i: nat)
    requires i <= |chunks|
    ensures var p := Steps(s, b, chunks, i);
            p.nodes.Ok? ==> |p.nodes.value| == i && Describes(b.tools.checksum, chunks, p.nodes.value)
  {
    if i > 0 {
      StepsDescribe(s, b, chunks, i - 1);
      var p := Steps(s, b, chunks, i - 1);
      if p.nodes.Ok? { ChunkStepDescribes(Saved(s), b, chunks, p, i - 1); }
    }
  }

  /** The archives back the saved nodes and the nodes built so far. */
  ghost predicate BackedProgress(checksum: string -> string, texts: set<string>, saved: seq<Node>, p: Progress) {
    && Covers(texts, p.archives) && Backed(checksum, saved, p.archives)
    && (p.nodes.Ok? ==> Backed(checksum, p.nodes.value, p.archives))
  }

  lemma ChunkStepKeepsBacking(saved: seq<Node>, b: Build, chunks: seq<Chunk>, texts: set<string>, p: Progress, i: nat)
    requires i < |chunks| && p.nodes.Ok? && IdsFaithful(b.tools.checksum, texts) && Requests(texts, chunks)
    requires BackedProgress(b.tools.checksum, texts, saved, p)
    ensures BackedProgress(b.tools.checksum, texts, saved, ChunkStep(saved, b, chunks, p, i))
  {
    var p' := ChunkStep(saved, b, chunks, p, i);
    var t := chunks[i].transcript;
    if p'.nodes.Ok? {
      var n := p'.nodes.value[|p.nodes.value|];
      assert p'.nodes.value == p.nodes.value + [n];
      if b.tools.checksum(t) in Cache(saved) {
        var k :| 0 <= k < |saved| && saved[k] == Cache(saved)[b.tools.checksum(t)];
      } else {
        WriteKeepsBacking(b.tools.checksum, texts, saved, p.archives, t);
        WriteKeepsBacking(b.tools.checksum, texts, p.nodes.value, p.archives, t);
      }
      assert NodeBacked(b.tools.checksum, n, p'.archives);
    }
  }

  lemma StepsKeepBacking(s: State, b: Build, chunks: seq<Chunk>, texts: set<string>)
    requires IdsFaithful(b.tools.checksum, texts) && Requests(texts, chunks)
    requires BackedProgress(b.tools.checksum, texts, Saved(s), Progress(s.archives, Ok([])))
    ensures BackedProgress(b.tools.checksum, texts, Saved(s), Steps(s, b, chunks, |chunks|))
  {
    var inv := (p: Progress) => BackedProgress(b.tools.checksum, texts, Saved(s), p);
    forall p: Progress, k: nat | k < |chunks| && inv(p) ensures inv(Next(Saved(s), b, chunks, p, k)) {
      if p.nodes.Ok? { ChunkStepKeepsBacking(Saved(s), b, chunks, texts, p, k); }
    }
    StepsInvariant(s, b, chunks, inv, |chunks|);
  }

  /** Every build, whether it succeeds or stops on an error, leaves each saved node with its archive. */
  lemma RunKeepsBacking(s: State, b: Build, chunks: seq<Chunk>, texts: set<string>)
    requires IdsFaithful(b.tools.checksum, texts) && Requests(texts, chunks)
    requires Covers(texts, s.archives) && Backed(b.tools.checksum, Saved(s), s.archives)
    ensures var s' := RunOn(s, b, chunks).0;
            Covers(texts, s'.archives) && Backed(b.tools.checksum, Saved(s'), s'.archives)
  {
    StepsKeepBacking(s, b, chunks, texts);
    var p := Steps(s, b, chunks, |chunks|);
    if p.nodes.Ok? {
      var nodes := KeepLast(p.nodes.value, b.cfg.maxArchives);
      CleaningKeepsBacking(
        b.tools.checksum, nodes, p.nodes.value, |p.nodes.value| - |nodes|, p.archives, b.faults.stuck);
    }
  }

  lemma CleaningKeepsBacking(
    checksum: string -> string, nodes: seq<Node>, all: seq<Node>, d: nat, archives: map<string, Archive>,
    stuck: set<string>)
    requires Backed(checksum, all, archives) && d <= |all| && nodes == all[d..]
    ensures Backed(checksum, nodes, Cleaned(archives, Ids(nodes), stuck))
    ensures stuck == {} ==> forall id :: id in Cleaned(archives, Ids(nodes), stuck) <==> id in Ids(nodes)
  {
    forall k | 0 <= k < |nodes| ensures NodeBacked(checksum, nodes[k], Cleaned(archives, Ids(nodes), stuck)) {
      assert nodes[k] == all[d + k] && Ids(nodes)[k] == nodes[k].content.id;
    }
    forall id | id in Ids(nodes) ensures id in archives {
      var k :| 0 <= k < |nodes| && Ids(nodes)[k] == id;
      assert nodes[k] == all[d + k];
    }
  }

  function RunAll(s: State, builds: seq<Build>): State {
    if builds == [] then s else Run(RunAll(s, builds[..|builds| - 1]), builds[|builds| - 1]).0
  }

  const EMPTY := State(None, map[])

  /** After any sequence of builds over one checksum function, faults and summarizers free to vary. */
  lemma {:induction false} ArchivesBackTheIndex(builds: seq<Build>, checksum: string -> string, texts: set<string>)
    requires IdsFaithful(checksum, texts)
    requires forall k :: 0 <= k < |builds| ==>
             builds[k].tools.checksum == checksum && Requests(texts, Chunks(builds[k]))
    ensures var s := RunAll(EMPTY, builds);
            Covers(texts, s.archives) && Backed(checksum, Saved(s), s.archives)
  {
    if builds != [] {
      ArchivesBackTheIndex(builds[..|builds| - 1], checksum, texts);
      var b := builds[|builds| - 1];
      RunKeepsBacking(RunAll(EMPTY, builds[..|builds| - 1]), b, Chunks(b), texts);
    }
  }

  ghost predicate StandsFor(checksum: string -> string, n: Node, chunk: Chunk, rank: int) {
    n.content.checksum == checksum(chunk.transcript) && n.recencyRank == rank
  }

  /** How many chunks are not kept. */
  function Dropped(chunks: seq<Chunk>, max: nat): nat {
    if |chunks| > max then |chunks| - max else 0
  }

  /** The nodes stand for the chunks from `d` on, in order, the newest with rank 0. */
  ghost predicate NewestFrom(checksum: string -> string, chunks: seq<Chunk>, d: nat, nodes: seq<Node>) {
    && d + |nodes| == |chunks|
    && forall k, j :: 0 <= k < |nodes| && j == d + k ==> StandsFor(checksum, nodes[k], chunks[j], |nodes| - 1 - k)
  }

  /** They are the last `max` chunks, or all if there are no more. */
  ghost predicate Newest(checksum: string -> string, chunks: seq<Chunk>, max: nat, nodes: seq<Node>) {
    NewestFrom(checksum, chunks, Dropped(chunks, max), nodes)
  }

  lemma DropIsNewest(checksum: string -> string, chunks: seq<Chunk>, d: nat, all: seq<Node>)
    requires |all| == |chunks| && d <= |all| && Describes(checksum, chunks, all)
    ensures NewestFrom(checksum, chunks, d, all[d..])
  {
    var nodes := all[d..];
    forall k, j | 0 <= k < |nodes| && j == d + k ensures StandsFor(checksum, nodes[k], chunks[j], |nodes| - 1 - k) {
      assert nodes[k] == all[j];
      assert StandsFor(checksum, all[j], chunks[j], |chunks| - 1 - j);
    }
  }

  lemma KeepLastIsNewest(checksum: string -> string, chunks: seq<Chunk>, max: nat, all: seq<Node>)
    requires |all| == |chunks| && Describes(checksum, chunks, all)
    ensures Newest(checksum, chunks, max, KeepLast(all, max))
  {
    var d := Dropped(chunks, max);
    DropIsNewest(checksum, chunks, d, all);
    assert KeepLast(all, max) == all[d..];
  }

  lemma NewestRanks(checksum: string -> string, chunks: seq<Chunk>, max: nat, nodes: seq<Node>, k: nat)
    requires Newest(checksum, chunks, max, nodes) && k < |nodes|
    ensures nodes[k].recencyRank == |nodes| - 1 - k
  {
    var d := Dropped(chunks, max);
    assert StandsFor(checksum, nodes[k], chunks[d + k], |nodes| - 1 - k);
  }

  /** What a successful run has done. */
  lemma RunOkMeans(s: State, b: Build, chunks: seq<Chunk>)
    ensures var ((s', r), p) := (RunOn(s, b, chunks), Steps(s, b, chunks, |chunks|));
            r.Ok? ==>
              p.nodes.Ok? && s'.index == Some(r.value) && r.value.nodes == KeepLast(p.nodes.value, b.cfg.maxArchives)
  {
  }

  /** A successful build saves what it returns: the newest `maxArchives` chunks. */
  lemma BuildKeepsNewest(s: State, b: Build, chunks: seq<Chunk>)
    ensures var (s', r) := RunOn(s, b, chunks);
            r.Ok? ==> s'.index == Some(r.value) && Newest(b.tools.checksum, chunks, b.cfg.maxArchives, r.value.nodes)
  {
    RunOkMeans(s, b, chunks);
    if RunOn(s, b, chunks).1.Ok? {
      StepsDescribe(s, b, chunks, |chunks|);
      KeepLastIsNewest(b.tools.checksum, chunks, b.cfg.maxArchives, Steps(s, b, chunks, |chunks|).nodes.value);
    }
  }

  /** A cleanup that removes all it should leaves exactly the archives of the saved nodes. */
  lemma CleanupIsExact(s: State, b: Build, chunks: seq<Chunk>, texts: set<string>)
    requires IdsFaithful(b.tools.checksum, texts) && Requests(texts, chunks) && b.faults.stuck == {}
    requires Covers(texts, s.archives) && Backed(b.tools.checksum, Saved(s), s.archives)
    ensures var (s', r) := RunOn(s, b, chunks);
            r.Ok? ==> forall id :: id in s'.archives <==> id in Ids(r.value.nodes)
  {
    var p := Steps(s, b, chunks, |chunks|);
    if p.nodes.Ok? {
      StepsKeepBacking(s, b, chunks, texts);
      var nodes := KeepLast(p.nodes.value, b.cfg.maxArchives);
      CleaningKeepsBacking(b.tools.checksum, nodes, p.nodes.value, |p.nodes.value| - |nodes|, p.archives, {});
    }
  }

  // ---- Message counts ----

  function Newlines(t: string): nat {
    if t == "" then 0 else Newlines(t[..|t| - 1]) + if t[|t| - 1] == '\n' then 1 else 0
  }

  lemma {:induction false} NewlinesConcat(t: string, u: string)
    ensures Newlines(t + u) == Newlines(t) + Newlines(u)
    decreases |u|
  {
    if u == "" {
      assert t + u == t;
    } else {
      assert (t + u)[..|t + u| - 1] == t + u[..|u| - 1];
      NewlinesConcat(t, u[..|u| - 1]);
    }
  }

  lemma {:induction false} NoNewlines(t: string)
    requires '\n' !in t
    ensures Newlines(t) == 0
    decreases |t|
  {
    if t != "" { NoNewlines(t[..|t| - 1]); }
  }

  lemma OneNewline(body: string)
    requires '\n' !in body
    ensures Newlines(body + "\n") == 1
  {
    NoNewlines(body);
    assert (body + "\n")[..|body|] == body;
  }

  predicate SingleLine(m: Message) {
    '\n' !in m.role && '\n' !in m.content
  }

  predicate SingleLines(chunk: seq<Message>) {
    forall k :: 0 <= k < |chunk| ==> SingleLine(chunk[k])
  }

  /** The transcript of single-line messages tells how many there were. */
  lemma {:induction false} TranscriptCountsMessages(chunk: seq<Message>)
    requires SingleLines(chunk)
    ensures Newlines(Transcript(chunk)) == |chunk|
  {
    if chunk != [] {
      var m := chunk[|chunk| - 1];
      TranscriptCountsMessages(chunk[..|chunk| - 1]);
      NewlinesConcat(Transcript(chunk[..|chunk| - 1]), Line(m));
      OneNewline(Label(m.role) + m.content);
    }
  }

  lemma TranscriptPush(chunk: seq<Message>, m: Message)
    ensures Transcript(chunk + [m]) == Transcript(chunk) + Line(m)
  {
    assert (chunk + [m])[..|chunk|] == chunk;
  }

  lemma Regroup(h: string, a: string, n: string, b: string)
    ensures h + (a + n + h + b) + n == (h + a + n) + (h + b + n)
  {
  }

  /** A two-line text of which the second line looks like a transcript line. */
  function Embedded(role: string, a: string, b: string): string {
    a + "\n" + Label(role) + b
  }

  /** A message with an embedded transcript line reads like two, so a cached count may belong to other messages. */
  lemma TranscriptsAreAmbiguous(role: string, a: string, b: string)
    ensures Transcript([Message(role, Embedded(role, a, b))]) == Transcript([Message(role, a), Message(role, b)])
  {
    var one, x, y := Message(role, Embedded(role, a, b)), Message(role, a), Message(role, b);
    OneLineTranscript(one);
    OneLineTranscript(x);
    TranscriptPush([x], y);
    assert [x] + [y] == [x, y];
    Regroup(Label(role), a, "\n", b);
  }

  lemma OneLineTranscript(m: Message)
    ensures Transcript([m]) == Line(m)
  {
    TranscriptPush([], m);
    assert [] + [m] == [m] && "" + Line(m) == Line(m);
  }

  // ---- An incremental build equals a build from scratch ----

  /** Whether message counts are compared, and if so the length every chunk with a given transcript has. */
  datatype Counting = Uncounted | CountedBy(len: string -> nat)

  ghost predicate CountOk(counting: Counting, n: nat, t: string) {
    counting.CountedBy? ==> n == counting.len(t)
  }

  /** The node is what transcript `t` derives to, and counts the length of its chunks. */
  ghost predicate DerivesFrom(tools: Tools, cfg: Config, counting: Counting, n: Node, t: string) {
    Derive(tools, cfg, t) == Ok(n.content) && CountOk(counting, n.messageCount, t)
  }

  ghost predicate NodeDerived(tools: Tools, cfg: Config, counting: Counting, n: Node, archives: map<string, Archive>) {
    n.content.id in archives && DerivesFrom(tools, cfg, counting, n, archives[n.content.id].transcript)
  }

  /** Each node is what its archived transcript derives to. */
  ghost predicate Derived(
    tools: Tools, cfg: Config, counting: Counting, nodes: seq<Node>, archives: map<string, Archive>) {
    forall k :: 0 <= k < |nodes| ==> NodeDerived(tools, cfg, counting, nodes[k], archives)
  }

  /** What is asked of the chunks of a build: transcripts without collisions, and the lengths that are counted on. */
  ghost predicate Admissible(checksum: string -> string, texts: set<string>, counting: Counting, chunks: seq<Chunk>) {
    NoCollisions(checksum, texts) && Requests(texts, chunks) && LengthsOk(counting, chunks)
  }

  ghost predicate LengthsOk(counting: Counting, chunks: seq<Chunk>) {
    forall i :: 0 <= i < |chunks| ==> CountOk(counting, chunks[i].count, chunks[i].transcript)
  }

  lemma WriteKeepsDerived(
    tools: Tools, cfg: Config, counting: Counting, texts: set<string>, nodes: seq<Node>,
    archives: map<string, Archive>, t: string)
    requires NoCollisions(tools.checksum, texts) && Covers(texts, archives) && t in texts
    requires Derived(tools, cfg, counting, nodes, archives)
    ensures var id := NodeId(tools.checksum(t));
            var archives' := archives[id := Archive(id, t)];
            Derived(tools, cfg, counting, nodes, archives') && Covers(texts, archives')
  {
    var id := NodeId(tools.checksum(t));
    forall k | 0 <= k < |nodes| ensures NodeDerived(tools, cfg, counting, nodes[k], archives[id := Archive(id, t)]) {
      assert NodeDerived(tools, cfg, counting, nodes[k], archives);
    }
  }

  /** Without collisions a cache hit is a hit on the same transcript. */
  lemma CachedNode(
    tools: Tools, cfg: Config, counting: Counting, texts: set<string>, saved: seq<Node>,
    archives: map<string, Archive>, t: string)
    requires NoCollisions(tools.checksum, texts) && Covers(texts, archives) && t in texts
    requires Derived(tools, cfg, counting, saved, archives) && tools.checksum(t) in Cache(saved)
    ensures var n := Cache(saved)[tools.checksum(t)];
            DerivesFrom(tools, cfg, counting, n, t) && NodeDerived(tools, cfg, counting, n, archives)
  {
    var n := Cache(saved)[tools.checksum(t)];
    var k :| 0 <= k < |saved| && saved[k] == n;
    SameChecksumSameTranscript(tools, cfg, counting, texts, saved[k], archives, t);
  }

  lemma SameChecksumSameTranscript(
    tools: Tools, cfg: Config, counting: Counting, texts: set<string>, n: Node, archives: map<string, Archive>,
    t: string)
    requires NoCollisions(tools.checksum, texts) && Covers(texts, archives) && t in texts
    requires NodeDerived(tools, cfg, counting, n, archives) && n.content.checksum == tools.checksum(t)
    ensures archives[n.content.id].transcript == t && DerivesFrom(tools, cfg, counting, n, t)
  {
    var u := archives[n.content.id].transcript;
    assert u in texts && tools.checksum(u) == n.content.checksum;
  }

  lemma PushKeepsDerived(
    tools: Tools, cfg: Config, counting: Counting, nodes: seq<Node>, n: Node, archives: map<string, Archive>)
    requires Derived(tools, cfg, counting, nodes, archives) && NodeDerived(tools, cfg, counting, n, archives)
    ensures Derived(tools, cfg, counting, nodes + [n], archives)
  {
  }

  /** The archives explain the saved nodes and the nodes built so far. */
  ghost predicate Explained(b: Build, counting: Counting, texts: set<string>, saved: seq<Node>, p: Progress) {
    && Covers(texts, p.archives) && Derived(b.tools, b.cfg, counting, saved, p.archives)
    && (p.nodes.Ok? ==> Derived(b.tools, b.cfg, counting, p.nodes.value, p.archives))
  }

  lemma ReuseKeepsDerived(
    b: Build, counting: Counting, texts: set<string>, saved: seq<Node>, p: Progress, cached: Node, rank: nat)
    requires p.nodes.Ok? && Explained(b, counting, texts, saved, p)
    requires NodeDerived(b.tools, b.cfg, counting, cached, p.archives)
    ensures Explained(b, counting, texts, saved, Reuse(cached, b, p, rank))
  {
    PushKeepsDerived(
      b.tools, b.cfg, counting, p.nodes.value, cached.(recencyRank := rank, updatedAt := b.now), p.archives);
  }

  lemma FreshKeepsDerived(
    b: Build, counting: Counting, texts: set<string>, saved: seq<Node>, p: Progress, t: string, count: nat, rank: nat,
    fails: bool)
    requires p.nodes.Ok? && NoCollisions(b.tools.checksum, texts) && t in texts && CountOk(counting, count, t)
    requires Explained(b, counting, texts, saved, p)
    ensures Explained(b, counting, texts, saved, Fresh(b, p, t, count, rank, fails))
  {
    var p' := Fresh(b, p, t, count, rank, fails);
    if p'.nodes.Ok? {
      WriteKeepsDerived(b.tools, b.cfg, counting, texts, saved, p.archives, t);
      WriteKeepsDerived(b.tools, b.cfg, counting, texts, p.nodes.value, p.archives, t);
      var n := Node(Derive(b.tools, b.cfg, t).value, count, rank, b.now, b.now);
      PushKeepsDerived(b.tools, b.cfg, counting, p.nodes.value, n, p'.archives);
    }
  }

  lemma AdmissibleAt(checksum: string -> string, texts: set<string>, counting: Counting, chunks: seq<Chunk>, i: nat)
    requires i < |chunks| && Admissible(checksum, texts, counting, chunks)
    ensures chunks[i].transcript in texts && CountOk(counting, chunks[i].count, chunks[i].transcript)
  {
  }

  lemma TakeKeepsDerived(
    saved: seq<Node>, b: Build, counting: Counting, texts: set<string>, p: Progress, t: string, count: nat, rank: nat,
    fails: bool)
    requires p.nodes.Ok? && NoCollisions(b.tools.checksum, texts) && t in texts && CountOk(counting, count, t)
    requires Explained(b, counting, texts, saved, p)
    ensures Explained(b, counting, texts, saved, Take(Cache(saved), b, p, t, count, rank, fails))
  {
    if b.tools.checksum(t) in Cache(saved) {
      CachedNode(b.tools, b.cfg, counting, texts, saved, p.archives, t);
      ReuseKeepsDerived(b, counting, texts, saved, p, Cache(saved)[b.tools.checksum(t)], rank);
    } else {
      FreshKeepsDerived(b, counting, texts, saved, p, t, count, rank, fails);
    }
  }

  lemma NextKeepsDerived(
    saved: seq<Node>, b: Build, counting: Counting, chunks: seq<Chunk>, texts: set<string>, p: Progress, i: nat)
    requires i < |chunks| && NoCollisions(b.tools.checksum, texts)
    requires chunks[i].transcript in texts && CountOk(counting, chunks[i].count, chunks[i].transcript)
    requires Explained(b, counting, texts, saved, p)
    ensures Explained(b, counting, texts, saved, Next(saved, b, chunks, p, i))
  {
    if p.nodes.Ok? {
      var c, rank, fails := chunks[i], |chunks| - 1 - i, b.faults.write(i);
      TakeKeepsDerived(saved, b, counting, texts, p, c.transcript, c.count, rank, fails);
      NextExplained(
        saved, b, counting, chunks, texts, p, i, Take(Cache(saved), b, p, c.transcript, c.count, rank, fails));
    }
  }

  lemma NextExplained(
    saved: seq<Node>, b: Build, counting: Counting, chunks: seq<Chunk>, texts: set<string>, p: Progress, i: nat,
    p': Progress)
    requires i < |chunks| && p.nodes.Ok? && Explained(b, counting, texts, saved, p')
    requires p' == Take(Cache(saved), b, p, chunks[i].transcript, chunks[i].count, |chunks| - 1 - i, b.faults.write(i))
    ensures Explained(b, counting, texts, saved, Next(saved, b, chunks, p, i))
  {
    NextIsTake(saved, b, chunks, p, i);
    assert Next(saved, b, chunks, p, i) == p';
  }

  lemma StepsKeepDerived(s: State, b: Build, counting: Counting, chunks: seq<Chunk>, texts: set<string>)
    requires Admissible(b.tools.checksum, texts, counting, chunks)
    requires Explained(b, counting, texts, Saved(s), Progress(s.archives, Ok([])))
    ensures Explained(b, counting, texts, Saved(s), Steps(s, b, chunks, |chunks|))
  {
    var inv := (p: Progress) => Explained(b, counting, texts, Saved(s), p);
    forall p: Progress, k: nat | k < |chunks| && inv(p) ensures inv(Next(Saved(s), b, chunks, p, k)) {
      AdmissibleAt(b.tools.checksum, texts, counting, chunks, k);
      NextKeepsDerived(Saved(s), b, counting, chunks, texts, p, k);
    }
    StepsInvariant(s, b, chunks, inv, |chunks|);
  }

  lemma CleaningKeepsDerived(
    tools: Tools, cfg: Config, counting: Counting, nodes: seq<Node>, all: seq<Node>, d: nat,
    archives: map<string, Archive>, stuck: set<string>)
    requires Derived(tools, cfg, counting, all, archives) && d <= |all| && nodes == all[d..]
    ensures Derived(tools, cfg, counting, nodes, Cleaned(archives, Ids(nodes), stuck))
  {
    forall k | 0 <= k < |nodes|
      ensures NodeDerived(tools, cfg, counting, nodes[k], Cleaned(archives, Ids(nodes), stuck))
    {
      assert nodes[k] == all[d + k] && Ids(nodes)[k] == nodes[k].content.id;
    }
  }

  lemma RunKeepsDerived(s: State, b: Build, counting: Counting, chunks: seq<Chunk>, texts: set<string>)
    requires Admissible(b.tools.checksum, texts, counting, chunks)
    requires Covers(texts, s.archives) && Derived(b.tools, b.cfg, counting, Saved(s), s.archives)
    ensures var s' := RunOn(s, b, chunks).0;
            Covers(texts, s'.archives) && Derived(b.tools, b.cfg, counting, Saved(s'), s'.archives)
  {
    StepsKeepDerived(s, b, counting, chunks, texts);
    var p := Steps(s, b, chunks, |chunks|);
    if p.nodes.Ok? {
      var nodes := KeepLast(p.nodes.value, b.cfg.maxArchives);
      CleaningKeepsDerived(
        b.tools, b.cfg, counting, nodes, p.nodes.value, |p.nodes.value| - |nodes|, p.archives, b.faults.stuck);
    }
  }

  /** Summaries are asked for in the same lengths; chunk size and archive limit are free. */
  predicate SameTargets(a: Config, b: Config) {
    a.l0TargetTokens == b.l0TargetTokens && a.l1TargetTokens == b.l1TargetTokens
  }

  lemma TargetsDetermine(
    tools: Tools, a: Config, b: Config, counting: Counting, nodes: seq<Node>, archives: map<string, Archive>)
    requires SameTargets(a, b) && Derived(tools, a, counting, nodes, archives)
    ensures Derived(tools, b, counting, nodes, archives)
  {
    forall k | 0 <= k < |nodes| ensures NodeDerived(tools, b, counting, nodes[k], archives) {
      assert NodeDerived(tools, a, counting, nodes[k], archives);
    }
  }

  ghost predicate AllAdmissible(builds: seq<Build>, tools: Tools, cfg: Config, counting: Counting, texts: set<string>) {
    forall k :: 0 <= k < |builds| ==>
      && builds[k].tools == tools && SameTargets(builds[k].cfg, cfg)
      && Admissible(tools.checksum, texts, counting, Chunks(builds[k]))
  }

  lemma {:induction false} RunAllKeepsDerived(
    builds: seq<Build>, tools: Tools, cfg: Config, counting: Counting, texts: set<string>)
    requires AllAdmissible(builds, tools, cfg, counting, texts)
    ensures var s := RunAll(EMPTY, builds);
            Covers(texts, s.archives) && Derived(tools, cfg, counting, Saved(s), s.archives)
  {
    if builds != [] {
      RunAllKeepsDerived(builds[..|builds| - 1], tools, cfg, counting, texts);
      var s, b := RunAll(EMPTY, builds[..|builds| - 1]), builds[|builds| - 1];
      TargetsDetermine(tools, cfg, b.cfg, counting, Saved(s), s.archives);
      RunKeepsDerived(s, b, counting, Chunks(b), texts);
      var s' := Run(s, b).0;
      TargetsDetermine(tools, b.cfg, cfg, counting, Saved(s'), s'.archives);
    }
  }

  ghost predicate SameNode(counting: Counting, a: Node, b: Node) {
    && a.content == b.content && a.recencyRank == b.recencyRank
    && (counting.CountedBy? ==> a.messageCount == b.messageCount)
  }

  ghost predicate Same(counting: Counting, a: seq<Node>, b: seq<Node>) {
    |a| == |b| && forall k :: 0 <= k < |a| ==> SameNode(counting, a[k], b[k])
  }

  ghost predicate SameOutcome(counting: Counting, a: Result<seq<Node>, Error>, b: Result<seq<Node>, Error>) {
    match a
    case Ok(x) => b.Ok? && Same(counting, x, b.value)
    case Err(_) => a == b
  }

  lemma PushSame(counting: Counting, a: seq<Node>, b: seq<Node>, x: Node, y: Node)
    requires Same(counting, a, b) && SameNode(counting, x, y)
    ensures Same(counting, a + [x], b + [y])
  {
  }

  lemma ReuseSame(b: Build, counting: Counting, n: Node, p: Progress, q: Progress, t: string, count: nat, rank: nat)
    requires DerivesFrom(b.tools, b.cfg, counting, n, t) && CountOk(counting, count, t)
    requires p.nodes.Ok? && q.nodes.Ok? && Same(counting, p.nodes.value, q.nodes.value)
    ensures SameOutcome(counting, Reuse(n, b, p, rank).nodes, Fresh(b, q, t, count, rank, false).nodes)
  {
    PushSame(counting, p.nodes.value, q.nodes.value,
             n.(recencyRank := rank, updatedAt := b.now), Node(n.content, count, rank, b.now, b.now));
  }

  lemma FreshSame(b: Build, counting: Counting, p: Progress, q: Progress, t: string, count: nat, rank: nat)
    requires p.nodes.Ok? && q.nodes.Ok? && Same(counting, p.nodes.value, q.nodes.value)
    ensures SameOutcome(counting, Fresh(b, p, t, count, rank, false).nodes, Fresh(b, q, t, count, rank, false).nodes)
  {
    var d := Derive(b.tools, b.cfg, t);
    if d.Ok? {
      var n := Node(d.value, count, rank, b.now, b.now);
      PushSame(counting, p.nodes.value, q.nodes.value, n, n);
    }
  }

  /** A cache hit gives what deriving again would give. */
  ghost predicate Trustworthy(saved: seq<Node>, b: Build, counting: Counting, t: string) {
    b.tools.checksum(t) in Cache(saved) ==>
      DerivesFrom(b.tools, b.cfg, counting, Cache(saved)[b.tools.checksum(t)], t)
  }

  lemma CacheIsTrustworthy(
    saved: seq<Node>, archives: map<string, Archive>, b: Build, counting: Counting, texts: set<string>, t: string)
    requires NoCollisions(b.tools.checksum, texts) && Covers(texts, archives) && t in texts
    requires Derived(b.tools, b.cfg, counting, saved, archives)
    ensures Trustworthy(saved, b, counting, t)
  {
    if b.tools.checksum(t) in Cache(saved) { CachedNode(b.tools, b.cfg, counting, texts, saved, archives, t); }
  }

  lemma TakeSame(
    saved: seq<Node>, b: Build, counting: Counting, t: string, count: nat, p: Progress, q: Progress, rank: nat)
    requires Trustworthy(saved, b, counting, t) && CountOk(counting, count, t)
    requires p.nodes.Ok? && q.nodes.Ok? && Same(counting, p.nodes.value, q.nodes.value)
    ensures var p', q' :=
              Take(Cache(saved), b, p, t, count, rank, false), Take(Cache([]), b, q, t, count, rank, false);
            SameOutcome(counting, p'.nodes, q'.nodes)
  {
    if b.tools.checksum(t) in Cache(saved) {
      ReuseSame(b, counting, Cache(saved)[b.tools.checksum(t)], p, q, t, count, rank);
    } else {
      FreshSame(b, counting, p, q, t, count, rank);
    }
  }

  /** A relation that the steps of two runs keep holds of the two whole loops. */
  lemma {:induction false} StepsRelate(
    s: State, s': State, b: Build, chunks: seq<Chunk>, rel: (Progress, Progress) -> bool, i: nat)
    requires i <= |chunks| && rel(Progress(s.archives, Ok([])), Progress(s'.archives, Ok([])))
    requires forall p, q, k: nat :: k < |chunks| && rel(p, q) ==>
               rel(Next(Saved(s), b, chunks, p, k), Next(Saved(s'), b, chunks, q, k))
    ensures rel(Steps(s, b, chunks, i), Steps(s', b, chunks, i))
  {
    if i > 0 { StepsRelate(s, s', b, chunks, rel, i - 1); }
  }

  lemma NextSame(saved: seq<Node>, b: Build, counting: Counting, chunks: seq<Chunk>, p: Progress, q: Progress, i: nat)
    requires i < |chunks| && !b.faults.write(i)
    requires Trustworthy(saved, b, counting, chunks[i].transcript)
    requires CountOk(counting, chunks[i].count, chunks[i].transcript)
    requires SameOutcome(counting, p.nodes, q.nodes)
    ensures SameOutcome(counting, Next(saved, b, chunks, p, i).nodes, Next([], b, chunks, q, i).nodes)
  {
    if p.nodes.Ok? {
      var c, rank := chunks[i], |chunks| - 1 - i;
      TakeSame(saved, b, counting, c.transcript, c.count, p, q, rank);
      var p' := Take(Cache(saved), b, p, c.transcript, c.count, rank, false);
      var q' := Take(Cache([]), b, q, c.transcript, c.count, rank, false);
      NextsAreTakes(saved, b, counting, chunks, p, q, i, p', q');
    }
  }

  lemma NextsAreTakes(
    saved: seq<Node>, b: Build, counting: Counting, chunks: seq<Chunk>, p: Progress, q: Progress, i: nat,
    p': Progress, q': Progress)
    requires i < |chunks| && p.nodes.Ok? && q.nodes.Ok? && !b.faults.write(i)
    requires SameOutcome(counting, p'.nodes, q'.nodes)
    requires p' == Take(Cache(saved), b, p, chunks[i].transcript, chunks[i].count, |chunks| - 1 - i, false)
    requires q' == Take(Cache([]), b, q, chunks[i].transcript, chunks[i].count, |chunks| - 1 - i, false)
    ensures SameOutcome(counting, Next(saved, b, chunks, p, i).nodes, Next([], b, chunks, q, i).nodes)
  {
    NextIsTake(saved, b, chunks, p, i);
    NextIsTake([], b, chunks, q, i);
    assert Next(saved, b, chunks, p, i) == p' && Next([], b, chunks, q, i) == q';
  }

  lemma StepsSame(s: State, b: Build, counting: Counting, chunks: seq<Chunk>, texts: set<string>)
    requires Admissible(b.tools.checksum, texts, counting, chunks)
    requires Covers(texts, s.archives) && Derived(b.tools, b.cfg, counting, Saved(s), s.archives)
    requires forall k :: 0 <= k < |chunks| ==> !b.faults.write(k)
    ensures SameOutcome(counting, Steps(s, b, chunks, |chunks|).nodes, Steps(EMPTY, b, chunks, |chunks|).nodes)
  {
    var rel := (p: Progress, q: Progress) => SameOutcome(counting, p.nodes, q.nodes);
    forall p, q, k: nat | k < |chunks| && rel(p, q)
      ensures rel(Next(Saved(s), b, chunks, p, k), Next(Saved(EMPTY), b, chunks, q, k))
    {
      AdmissibleAt(b.tools.checksum, texts, counting, chunks, k);
      CacheIsTrustworthy(Saved(s), s.archives, b, counting, texts, chunks[k].transcript);
      NextSame(Saved(s), b, counting, chunks, p, q, k);
    }
    StepsRelate(s, EMPTY, b, chunks, rel, |chunks|);
  }

  lemma {:induction false} SameAbstracts(counting: Counting, a: seq<Node>, b: seq<Node>)
    requires Same(counting, a, b)
    ensures Abstracts(a) == Abstracts(b) && Ids(a) == Ids(b)
  {
    if a != [] {
      SameAbstracts(counting, a[..|a| - 1], b[..|b| - 1]);
    }
  }

  /** The same root and the same nodes, up to timestamps and, unless they are compared, message counts. */
  ghost predicate SameIndex(counting: Counting, a: Result<Index, Error>, b: Result<Index, Error>) {
    match a
    case Ok(x) => b.Ok? && x.root == b.value.root && Same(counting, x.nodes, b.value.nodes)
    case Err(_) => a == b
  }

  /**
   With a deterministic summarizer, no checksum collisions and a store that works this time, a
   build over whatever earlier builds left, failed ones included, returns what a build over an
   empty store returns, errors included.  If the transcript of a chunk tells its length, the
   message counts agree as well.
   */
  lemma IncrementalEqualsScratch(builds: seq<Build>, b: Build, counting: Counting, texts: set<string>)
    requires AllAdmissible(builds, b.tools, b.cfg, counting, texts)
    requires Admissible(b.tools.checksum, texts, counting, Chunks(b))
    requires !b.faults.load && !b.faults.save && forall k :: 0 <= k < |Chunks(b)| ==> !b.faults.write(k)
    ensures SameIndex(counting, Run(RunAll(EMPTY, builds), b).1, Run(EMPTY, b).1)
  {
    RunAllKeepsDerived(builds, b.tools, b.cfg, counting, texts);
    RunSame(RunAll(EMPTY, builds), b, counting, Chunks(b), texts);
  }

  // ---- When message counts agree ----

  /** The count a build gives to a chunk: the cached one if its checksum is cached. */
  ghost function CountGiven(saved: seq<Node>, b: Build, c: Chunk): nat {
    var checksum := b.tools.checksum(c.transcript);
    if checksum in Cache(saved) then Cache(saved)[checksum].messageCount else c.count
  }

  lemma TakeCounts(saved: seq<Node>, b: Build, p: Progress, c: Chunk, rank: nat, fails: bool)
    requires p.nodes.Ok?
    ensures var r := Take(Cache(saved), b, p, c.transcript, c.count, rank, fails).nodes;
            r.Ok? ==> exists n :: r.value == p.nodes.value + [n] && n.messageCount == CountGiven(saved, b, c)
  {
    var r := Take(Cache(saved), b, p, c.transcript, c.count, rank, fails).nodes;
    if r.Ok? {
      var n := r.value[|p.nodes.value|];
      assert r.value == p.nodes.value + [n];
    }
  }

  ghost predicate CountedAs(saved: seq<Node>, b: Build, chunks: seq<Chunk>, d: nat, nodes: seq<Node>) {
    && d + |nodes| <= |chunks|
    && forall k, j :: 0 <= k < |nodes| && j == d + k ==> nodes[k].messageCount == CountGiven(saved, b, chunks[j])
  }

  lemma {:induction false} StepsCount(s: State, b: Build, chunks: seq<Chunk>, i: nat)
    requires i <= |chunks|
    ensures var r := Steps(s, b, chunks, i).nodes;
            r.Ok? ==> |r.value| == i && CountedAs(Saved(s), b, chunks, 0, r.value)
  {
    if i > 0 {
      StepsCount(s, b, chunks, i - 1);
      var p := Steps(s, b, chunks, i - 1);
      if p.nodes.Ok? {
        NextIsTake(Saved(s), b, chunks, p, i - 1);
        TakeCounts(Saved(s), b, p, chunks[i - 1], |chunks| - i, b.faults.write(i - 1));
      }
    }
  }

  lemma KeptCount(saved: seq<Node>, b: Build, chunks: seq<Chunk>, nodes: seq<Node>, max: nat)
    requires |nodes| == |chunks| && CountedAs(saved, b, chunks, 0, nodes)
    ensures var kept, d := KeepLast(nodes, max), Dropped(chunks, max);
            d + |kept| == |chunks| && CountedAs(saved, b, chunks, d, kept)
  {
    var kept, d := KeepLast(nodes, max), Dropped(chunks, max);
    assert kept == nodes[d..];
    forall k, j | 0 <= k < |kept| && j == d + k ensures kept[k].messageCount == CountGiven(saved, b, chunks[j]) {
      assert kept[k] == nodes[j];
      assert nodes[j].messageCount == CountGiven(saved, b, chunks[0 + j]);
    }
  }

  lemma RunCounts(s: State, b: Build, chunks: seq<Chunk>)
    requires RunOn(s, b, chunks).1.Ok?
    ensures var nodes, d := RunOn(s, b, chunks).1.value.nodes, Dropped(chunks, b.cfg.maxArchives);
            d + |nodes| == |chunks| && CountedAs(Saved(s), b, chunks, d, nodes)
  {
    RunOkMeans(s, b, chunks);
    StepsCount(s, b, chunks, |chunks|);
    KeptCount(Saved(s), b, chunks, Steps(s, b, chunks, |chunks|).nodes.value, b.cfg.maxArchives);
  }

  ghost predicate SameCounts(a: seq<Node>, b: seq<Node>) {
    |a| == |b| && forall k :: 0 <= k < |a| ==> a[k].messageCount == b[k].messageCount
  }

  /** No chunk that will be kept has a cached node with another count. */
  ghost predicate CacheCountsRight(saved: seq<Node>, b: Build, chunks: seq<Chunk>) {
    forall j :: Dropped(chunks, b.cfg.maxArchives) <= j < |chunks| ==>
      CountGiven(saved, b, chunks[j]) == chunks[j].count
  }

  lemma CountedAsScratch(saved: seq<Node>, b: Build, chunks: seq<Chunk>, x: seq<Node>, y: seq<Node>)
    requires var d := Dropped(chunks, b.cfg.maxArchives);
             d + |x| == |chunks| && |x| == |y| && CountedAs(saved, b, chunks, d, x) && CountedAs([], b, chunks, d, y)
    ensures SameCounts(x, y) <==> CacheCountsRight(saved, b, chunks)
  {
    var d := Dropped(chunks, b.cfg.maxArchives);
    forall k, j | 0 <= k < |x| && j == d + k
      ensures x[k].messageCount == CountGiven(saved, b, chunks[j]) && y[k].messageCount == chunks[j].count
    {
    }
    if SameCounts(x, y) {
      forall j | d <= j < |chunks| ensures CountGiven(saved, b, chunks[j]) == chunks[j].count {
        assert x[j - d].messageCount == y[j - d].messageCount;
      }
    }
    if CacheCountsRight(saved, b, chunks) {
      forall k | 0 <= k < |x| ensures x[k].messageCount == y[k].messageCount {
        assert CountGiven(saved, b, chunks[d + k]) == chunks[d + k].count;
      }
    }
  }

  /**
   Over whatever is saved, a build gives the message counts of a build from scratch exactly if
   no chunk it keeps is cached with another count.
   */
  lemma CountsAgreeIff(s: State, b: Build)
    requires Run(s, b).1.Ok? && Run(EMPTY, b).1.Ok?
    ensures SameCounts(Run(s, b).1.value.nodes, Run(EMPTY, b).1.value.nodes) <==>
            CacheCountsRight(Saved(s), b, Chunks(b))
  {
    var chunks := Chunks(b);
    RunCounts(s, b, chunks);
    RunCounts(EMPTY, b, chunks);
    CountedAsScratch(Saved(s), b, chunks, Run(s, b).1.value.nodes, Run(EMPTY, b).1.value.nodes);
  }

  /** The chunks of all the builds. */
  function AllChunks(builds: seq<Build>): seq<Chunk> {
    if builds == [] then [] else AllChunks(builds[..|builds| - 1]) + Chunks(builds[|builds| - 1])
  }

  /** No two of the chunks have one transcript and different lengths. */
  ghost predicate OneLength(all: seq<Chunk>) {
    forall i, j :: 0 <= i < |all| && 0 <= j < |all| && all[i].transcript == all[j].transcript ==>
      all[i].count == all[j].count
  }

  ghost function LengthIn(all: seq<Chunk>, t: string): nat {
    if i :| 0 <= i < |all| && all[i].transcript == t then all[i].count else 0
  }

  ghost predicate Among(chunks: seq<Chunk>, all: seq<Chunk>) {
    forall i :: 0 <= i < |chunks| ==> chunks[i] in all
  }

  lemma LengthsInAll(chunks: seq<Chunk>, all: seq<Chunk>)
    requires OneLength(all) && Among(chunks, all)
    ensures LengthsOk(CountedBy(t => LengthIn(all, t)), chunks)
  {
    forall i | 0 <= i < |chunks| ensures LengthIn(all, chunks[i].transcript) == chunks[i].count {
      var j :| 0 <= j < |all| && all[j] == chunks[i];
    }
  }

  lemma {:induction false} ChunksAreAmong(builds: seq<Build>, k: nat)
    requires k < |builds|
    ensures Among(Chunks(builds[k]), AllChunks(builds))
  {
    if k < |builds| - 1 {
      ChunksAreAmong(builds[..|builds| - 1], k);
    }
  }

  /** Over whole runs: the counts agree if no two chunks ever built have one transcript and different lengths. */
  lemma CountsAgree(builds: seq<Build>, b: Build, texts: set<string>)
    requires AllAdmissible(builds, b.tools, b.cfg, Uncounted, texts)
    requires Admissible(b.tools.checksum, texts, Uncounted, Chunks(b))
    requires !b.faults.load && !b.faults.save && forall k :: 0 <= k < |Chunks(b)| ==> !b.faults.write(k)
    requires OneLength(AllChunks(builds + [b]))
    ensures var all := AllChunks(builds + [b]);
            SameIndex(CountedBy(t => LengthIn(all, t)), Run(RunAll(EMPTY, builds), b).1, Run(EMPTY, b).1)
  {
    var all := AllChunks(builds + [b]);
    var counting := CountedBy(t => LengthIn(all, t));
    forall k | 0 <= k < |builds| ensures LengthsOk(counting, Chunks(builds[k])) {
      ChunksAreAmong(builds + [b], k);
      LengthsInAll(Chunks(builds[k]), all);
    }
    ChunksAreAmong(builds + [b], |builds|);
    LengthsInAll(Chunks(b), all);
    IncrementalEqualsScratch(builds, b, counting, texts);
  }

  /** Chunks of single-line messages are such: the transcript tells how many there were. */
  lemma SingleLinesHaveOneLength(raw: seq<seq<Message>>)
    requires forall i :: 0 <= i < |raw| ==> SingleLines(raw[i])
    ensures OneLength(FormatAll(raw))
  {
    var all := FormatAll(raw);
    forall i | 0 <= i < |all| ensures Newlines(all[i].transcript) == all[i].count { TranscriptCountsMessages(raw[i]); }
  }

  lemma KeepLastSame(counting: Counting, a: seq<Node>, b: seq<Node>, max: nat)
    requires Same(counting, a, b)
    ensures Same(counting, KeepLast(a, max), KeepLast(b, max))
  {
  }

  lemma RunSame(s: State, b: Build, counting: Counting, chunks: seq<Chunk>, texts: set<string>)
    requires Admissible(b.tools.checksum, texts, counting, chunks)
    requires Covers(texts, s.archives) && Derived(b.tools, b.cfg, counting, Saved(s), s.archives)
    requires !b.faults.load && !b.faults.save && forall k :: 0 <= k < |chunks| ==> !b.faults.write(k)
    ensures SameIndex(counting, RunOn(s, b, chunks).1, RunOn(EMPTY, b, chunks).1)
  {
    StepsSame(s, b, counting, chunks, texts);
    var p, q := Steps(s, b, chunks, |chunks|), Steps(EMPTY, b, chunks, |chunks|);
    if p.nodes.Ok? {
      KeepLastSame(counting, p.nodes.value, q.nodes.value, b.cfg.maxArchives);
      FinishSame(s, EMPTY, b, counting, p.archives, q.archives,
                 KeepLast(p.nodes.value, b.cfg.maxArchives), KeepLast(q.nodes.value, b.cfg.maxArchives));
    }
  }

  lemma FinishSame(
    s: State, s': State, b: Build, counting: Counting, a: map<string, Archive>, a': map<string, Archive>,
    x: seq<Node>, y: seq<Node>)
    requires Same(counting, x, y)
    ensures SameIndex(counting, Finish(s, b, a, x).1, Finish(s', b, a', y).1)
  {
    SameAbstracts(counting, x, y);
  }

  ghost predicate Works(b: Build) {
    && (forall t, n :: b.tools.summarize(t, n).Ok?)
    && !b.faults.load && !b.faults.save && !b.faults.write(0) && b.cfg.maxArchives > 0
  }

  lemma StepWorks(saved: seq<Node>, b: Build, chunk: Chunk, p: Progress)
    requires Works(b) && p.nodes == Ok([])
    ensures var checksum, r := b.tools.checksum(chunk.transcript), Next(saved, b, [chunk], p, 0).nodes;
            && r.Ok? && |r.value| == 1 && r.value[0].content.checksum == checksum
            && r.value[0].messageCount
              == if checksum in Cache(saved) then Cache(saved)[checksum].messageCount else chunk.count
  {
  }

  ghost predicate CountsOnly(r: Result<Index, Error>, checksum: string, n: nat) {
    r.Ok? && |r.value.nodes| == 1 && r.value.nodes[0].content.checksum == checksum && r.value.nodes[0].messageCount == n
  }

  lemma OneChunkCount(s: State, b: Build, chunk: Chunk)
    requires Works(b)
    ensures var checksum := b.tools.checksum(chunk.transcript);
            && CountsOnly(RunOn(s, b, [chunk]).1, checksum,
                          if checksum in Cache(Saved(s)) then Cache(Saved(s))[checksum].messageCount else chunk.count)
            && Saved(RunOn(s, b, [chunk]).0) == RunOn(s, b, [chunk]).1.value.nodes
  {
    var start := Progress(s.archives, Ok([]));
    assert Steps(s, b, [chunk], 0) == start;
    assert Steps(s, b, [chunk], 1) == Next(Saved(s), b, [chunk], start, 0);
    StepWorks(Saved(s), b, chunk, start);
  }

  lemma CacheOne(n: Node)
    ensures Cache([n]) == map[n.content.checksum := n]
  {
    assert [n][..0] == [];
  }

  /** What one chunk leaves behind: a single saved node that counts it. */
  lemma FirstCount(b: Build, c: Chunk) returns (s: State, n: Node)
    requires Works(b)
    ensures s == RunOn(EMPTY, b, [c]).0 && Saved(s) == [n]
    ensures n.content.checksum == b.tools.checksum(c.transcript) && n.messageCount == c.count
    ensures CountsOnly(RunOn(EMPTY, b, [c]).1, n.content.checksum, c.count)
  {
    OneChunkCount(EMPTY, b, c);
    s, n := RunOn(EMPTY, b, [c]).0, RunOn(EMPTY, b, [c]).1.value.nodes[0];
  }

  lemma SecondCount(s: State, n: Node, b: Build, d: Chunk)
    requires Works(b) && Saved(s) == [n] && n.content.checksum == b.tools.checksum(d.transcript)
    ensures CountsOnly(RunOn(s, b, [d]).1, n.content.checksum, n.messageCount)
  {
    CacheOne(n);
    OneChunkCount(s, b, d);
  }

  /** Archive one chunk, then another with the same transcript: the count of the first is kept. */
  lemma StaleCount(one: Build, two: Build, c: Chunk, d: Chunk)
    requires Works(one) && Works(two) && one.tools == two.tools && c.transcript == d.transcript
    ensures var checksum := two.tools.checksum(d.transcript);
            && CountsOnly(RunOn(EMPTY, two, [d]).1, checksum, d.count)
            && CountsOnly(RunOn(RunOn(EMPTY, one, [c]).0, two, [d]).1, checksum, c.count)
  {
    var s, n := FirstCount(one, c);
    SecondCount(s, n, two, d);
    var _, _ := FirstCount(two, d);
  }

  /** One two-line message, then two messages that read the same: the second build keeps the count 1. */
  lemma CountsCanDisagree(one: Build, two: Build, role: string, a: string, b: string)
    requires one.messages == [Message(role, Embedded(role, a, b))]
    requires two == one.(messages := [Message(role, a), Message(role, b)])
    requires one.cfg.archiveChunkSize == 8 && Works(one)
    ensures var checksum := two.tools.checksum(Transcript(two.messages));
            && CountsOnly(Run(EMPTY, two).1, checksum, 2)
            && CountsOnly(Run(Run(EMPTY, one).0, two).1, checksum, 1)
  {
    TranscriptsAreAmbiguous(role, a, b);
    assert Chunks(one) == [Format(one.messages)] && Chunks(two) == [Format(two.messages)];
    StaleCount(one, two, Format(one.messages), Format(two.messages));
  }
}
