/**
 The conversation registry: which conversation a connector coordinate feeds, and which one has
 the user's attention.  Calls come one at a time; generated ids, clock readings, running loops
 and store faults are inputs.
 */
module ConversationRegistries {
  import opened Prelude

  datatype Status = Active | Archived

  datatype Conversation = Conversation(status: Status, coord: Option<string>, updatedAt: int)

  datatype Error = StoreError | NotFound | Running

  type Stored = map<string, Conversation>

  datatype State = State(stored: Stored, bindings: map<string, string>, active: Option<string>)

  predicate IsActive(stored: Stored, id: string) {
    id in stored && stored[id].status == Active
  }

  // ---- Transitions ----

  function Created(s: State, coord: string, id: string, now: int): State {
    s.(stored := s.stored[id := Conversation(Active, Some(coord), now)], bindings := s.bindings[coord := id])
  }

  /** `id` is the id generated if a conversation has to be created. */
  function Resolve(
    s: State, coord: string, id: string, now: int, getFails: bool, createFails: bool): (State, Result<string, Error>) {
    if coord in s.bindings && getFails then (s, Err(StoreError))
    else if coord in s.bindings && IsActive(s.stored, s.bindings[coord]) then (s, Ok(s.bindings[coord]))
    else if createFails then (s.(bindings := s.bindings - {coord}), Err(StoreError))
    else (Created(s, coord, id, now), Ok(id))
  }

  function SetStatus(s: State, id: string, status: Status, now: int): State
    requires id in s.stored
  {
    s.(stored := s.stored[id := s.stored[id].(status := status, updatedAt := now)])
  }

  function Archive(
    s: State, id: string, running: bool, now: int, getFails: bool, updateFails: bool): (State, Result<(), Error>) {
    if running then (s, Err(Running))
    else if getFails then (s, Err(StoreError))
    else if id !in s.stored then (s, Err(NotFound))
    else if updateFails then (s, Err(StoreError))
    else
      var t := SetStatus(s, id, Archived, now);
      (t.(active := if s.active == Some(id) then None else s.active), Ok(()))
  }

  function Unarchive(s: State, id: string, now: int, getFails: bool, updateFails: bool): (State, Result<(), Error>) {
    if getFails then (s, Err(StoreError))
    else if id !in s.stored then (s, Err(NotFound))
    else if updateFails then (s, Err(StoreError))
    else (SetStatus(s, id, Active, now), Ok(()))
  }

  function Create(s: State, id: string, now: int, createFails: bool): (State, Result<string, Error>) {
    if createFails then (s, Err(StoreError))
    else (s.(stored := s.stored[id := Conversation(Active, None, now)], active := Some(id)), Ok(id))
  }

  /** The coordinates of the listed conversations, each bound to the last one that has it. */
  function Rebound(stored: Stored, bindings: map<string, string>, listed: seq<string>): map<string, string> {
    if listed == [] then bindings
    else
      var front, last := Rebound(stored, bindings, listed[..|listed| - 1]), listed[|listed| - 1];
      if last in stored && stored[last].coord.Some? then front[stored[last].coord.value := last] else front
  }

  /** The first of the most recently updated conversations that are not archived. */
  function MostRecent(stored: Stored, listed: seq<string>): Option<string> {
    if listed == [] then None
    else
      var best, last := MostRecent(stored, listed[..|listed| - 1]), listed[|listed| - 1];
      if !IsActive(stored, last) then best
      else if best.Some? && best.value in stored && stored[best.value].updatedAt >= stored[last].updatedAt then best
      else Some(last)
  }

  function Bootstrap(s: State, listed: seq<string>): State {
    var recent := MostRecent(s.stored, listed);
    s.(bindings := Rebound(s.stored, s.bindings, listed), active := if recent.Some? then recent else s.active)
  }

  // ---- The registry as code ----

  class ConversationRegistry {
    var stored: Stored
    var bindings: map<string, string>
    var activeId: Option<string>

    function View(): State
      reads this
    {
      State(stored, bindings, activeId)
    }

    constructor (stored: Stored)
      ensures View() == State(stored, map[], None)
    {
      this.stored, bindings, activeId := stored, map[], None;
    }

    method ResolveOrCreateForCoord(coord: string, generated: string, now: int, getFails: bool, createFails: bool)
      returns (r: Result<string, Error>)
      modifies this
      ensures (View(), r) == Resolve(old(View()), coord, generated, now, getFails, createFails)
    {
      if coord in bindings {
        var id := bindings[coord];
        if getFails {
          return Err(StoreError);
        }
        if id in stored && stored[id].status == Active {
          return Ok(id);
        }
        bindings := bindings - {coord};
      }
      assert bindings == old(bindings) - {coord};
      if createFails {
        return Err(StoreError);
      }
      stored := stored[generated := Conversation(Active, Some(coord), now)];
      bindings := bindings[coord := generated];
      assert bindings == old(bindings)[coord := generated];
      return Ok(generated);
    }

    method SetActive(id: string) returns (previous: Option<string>)
      modifies this`activeId
      ensures previous == old(activeId) && activeId == Some(id)
    {
      previous := activeId;
      activeId := Some(id);
    }

    /** Tells the previous id only if the active id changed. */
    method Touch(id: string) returns (previous: Option<string>)
      modifies this`activeId
      ensures activeId == Some(id)
      ensures previous == if old(activeId) == Some(id) then None else old(activeId)
    {
      if activeId == Some(id) {
        return None;
      }
      previous := activeId;
      activeId := Some(id);
    }

    method CreateConversation(generated: string, now: int, createFails: bool) returns (r: Result<string, Error>)
      modifies this
      ensures (View(), r) == Create(old(View()), generated, now, createFails)
    {
      if createFails {
        return Err(StoreError);
      }
      stored := stored[generated := Conversation(Active, None, now)];
      var _ := SetActive(generated);
      return Ok(generated);
    }

    method ArchiveConversation(id: string, running: bool, now: int, getFails: bool, updateFails: bool)
      returns (r: Result<(), Error>)
      modifies this
      ensures (View(), r) == Archive(old(View()), id, running, now, getFails, updateFails)
    {
      if running {
        return Err(Running);
      }
      if getFails {
        return Err(StoreError);
      }
      if id !in stored {
        return Err(NotFound);
      }
      if updateFails {
        return Err(StoreError);
      }
      stored := stored[id := stored[id].(status := Archived, updatedAt := now)];
      if activeId == Some(id) {
        activeId := None;
      }
      return Ok(());
    }

    method UnarchiveConversation(id: string, now: int, getFails: bool, updateFails: bool) returns (r: Result<(), Error>)
      modifies this
      ensures (View(), r) == Unarchive(old(View()), id, now, getFails, updateFails)
    {
      if getFails {
        return Err(StoreError);
      }
      if id !in stored {
        return Err(NotFound);
      }
      if updateFails {
        return Err(StoreError);
      }
      stored := stored[id := stored[id].(status := Active, updatedAt := now)];
      return Ok(());
    }

    method BootstrapActiveFromStore(listed: seq<string>)
      modifies this
      ensures View() == Bootstrap(old(View()), listed)
    {
      var recent: Option<string> := None;
      for i := 0 to |listed|
        invariant stored == old(stored) && activeId == old(activeId)
        invariant bindings == Rebound(stored, old(bindings), listed[..i])
        invariant recent == MostRecent(stored, listed[..i])
      {
        var id := listed[i];
        assert listed[..i + 1][..i] == listed[..i];
        if id in stored && stored[id].coord.Some? {
          bindings := bindings[stored[id].coord.value := id];
        }
        if IsActive(stored, id) {
          if !(recent.Some? && recent.value in stored && stored[recent.value].updatedAt >= stored[id].updatedAt) {
            recent := Some(id);
          }
        }
      }
      assert listed[..|listed|] == listed;
      if recent.Some? {
        activeId := recent;
      }
    }
  }

  // ---- Bindings ----

  ghost predicate BoundRight(s: State, coord: string)
    requires coord in s.bindings
  {
    s.bindings[coord] in s.stored && s.stored[s.bindings[coord]].coord == Some(coord)
  }

  /** Every binding names a stored conversation that carries the coordinate. */
  ghost predicate Sound(s: State) {
    forall coord :: coord in s.bindings ==> BoundRight(s, coord)
  }

  lemma CoordinatesNeverShare(s: State, a: string, b: string)
    requires Sound(s) && a in s.bindings && b in s.bindings && s.bindings[a] == s.bindings[b]
    ensures a == b
  {
    assert BoundRight(s, a) && BoundRight(s, b);
  }

  /** Creating a conversation for a coordinate keeps the bindings sound exactly if no other coordinate has its id. */
  lemma CreatedKeepsSound(s: State, coord: string, id: string, now: int)
    requires Sound(s)
    ensures Sound(Created(s, coord, id, now)) <==> forall c :: c in s.bindings && c != coord ==> s.bindings[c] != id
  {
    var s' := Created(s, coord, id, now);
    if c :| c in s.bindings && c != coord && s.bindings[c] == id {
      assert !BoundRight(s', c);
    } else {
      forall c | c in s'.bindings ensures BoundRight(s', c) {
        if c != coord { assert BoundRight(s, c); }
      }
    }
  }

  predicate SameBinding(s: State, s': State, c: string) {
    (c in s'.bindings <==> c in s.bindings) && (c in s.bindings ==> s'.bindings[c] == s.bindings[c])
  }

  /**
   What resolving gives: an active conversation of that coordinate, nothing else moved, and the
   same one next time.
   */
  lemma ResolveGivesActive(s: State, coord: string, id: string, now: int, getFails: bool, createFails: bool)
    requires Sound(s)
    ensures var (s', r) := Resolve(s, coord, id, now, getFails, createFails);
            && s'.active == s.active
            && (forall c :: c != coord ==> SameBinding(s, s', c))
            && (forall k :: k in s.stored && r != Ok(k) ==> k in s'.stored && s'.stored[k] == s.stored[k])
            && (r.Ok? ==>
                  && IsActive(s'.stored, r.value) && s'.stored[r.value].coord == Some(coord)
                  && s'.bindings[coord] == r.value)
  {
    if coord in s.bindings { assert BoundRight(s, coord); }
  }

  lemma ResolveIsStable(s: State, coord: string, id: string, now: int, id': string, now': int)
    ensures var (s', r) := Resolve(s, coord, id, now, false, false);
            Resolve(s', coord, id', now', false, false) == (s', r)
  {
  }

  /** After its conversation is archived, a coordinate gets a fresh one. */
  lemma ArchiveMakesFresh(s: State, coord: string, now: int, id: string, now': int)
    requires Sound(s) && coord in s.bindings
    ensures var s' := Archive(s, s.bindings[coord], false, now, false, false).0;
            Resolve(s', coord, id, now', false, false).1 == Ok(id)
  {
    assert BoundRight(s, coord);
  }

  /** Which calls are refused, and that a refused one changes nothing. */
  lemma RefusedChangesNothing(
    s: State, id: string, running: bool, now: int, getFails: bool, updateFails: bool, createFails: bool)
    ensures var (s', r) := Archive(s, id, running, now, getFails, updateFails);
            (r.Ok? <==> !running && !getFails && id in s.stored && !updateFails) && (r.Err? ==> s' == s)
    ensures var (s', r) := Unarchive(s, id, now, getFails, updateFails);
            (r.Ok? <==> !getFails && id in s.stored && !updateFails) && (r.Err? ==> s' == s)
    ensures var (s', r) := Create(s, id, now, createFails);
            (r.Ok? <==> !createFails) && (r.Err? ==> s' == s)
  {
  }

  /** Archiving takes the focus off the conversation; unarchiving makes it active again without giving it back. */
  lemma ArchiveAndBack(s: State, id: string, now: int, later: int)
    requires IsActive(s.stored, id)
    ensures var archived := Archive(s, id, false, now, false, false).0;
            var back := Unarchive(archived, id, later, false, false).0;
            && !IsActive(archived.stored, id) && archived.active != Some(id)
            && archived.active == (if s.active == Some(id) then None else s.active)
            && archived.stored - {id} == s.stored - {id} && archived.bindings == s.bindings
            && back == State(s.stored[id := s.stored[id].(updatedAt := later)], s.bindings, archived.active)
  {
    var archived := Archive(s, id, false, now, false, false).0;
    assert archived.stored - {id} == s.stored - {id};
  }

  /** A conversation that is created is active, has the focus and no coordinate. */
  lemma CreatedHasFocus(s: State, id: string, now: int)
    requires id !in s.stored
    ensures var (s', r) := Create(s, id, now, false);
            && r == Ok(id) && s'.active == Some(id) && s'.bindings == s.bindings
            && s'.stored.Keys == s.stored.Keys + {id} && s'.stored - {id} == s.stored
            && s'.stored[id] == Conversation(Active, None, now)
  {
    assert (s.stored[id := Conversation(Active, None, now)]) - {id} == s.stored;
  }

  /** When the store fails a coordinate is not resolved, and if creating fails its old binding is gone. */
  lemma ResolveFailsIff(s: State, coord: string, id: string, now: int, getFails: bool, createFails: bool)
    ensures var (s', r) := Resolve(s, coord, id, now, getFails, createFails);
            var bound := coord in s.bindings;
            && (r.Err? <==> if bound && (getFails || IsActive(s.stored, s.bindings[coord])) then getFails
                            else createFails)
            && (r.Err? ==>
                  s'.stored == s.stored && (if bound && getFails then s' == s else coord !in s'.bindings))
  {
  }

  // ---- Restarting ----

  /** The last listed conversation that carries the coordinate. */
  ghost predicate LastWith(stored: Stored, listed: seq<string>, coord: string, k: nat) {
    && k < |listed| && listed[k] in stored && stored[listed[k]].coord == Some(coord)
    && forall j :: k < j < |listed| ==> !(listed[j] in stored && stored[listed[j]].coord == Some(coord))
  }

  ghost predicate NoneWith(stored: Stored, listed: seq<string>, coord: string) {
    forall j :: 0 <= j < |listed| ==> !(listed[j] in stored && stored[listed[j]].coord == Some(coord))
  }

  lemma {:induction false} ReboundToLast(stored: Stored, listed: seq<string>, coord: string)
    ensures var b := Rebound(stored, map[], listed);
            if coord in b then exists k: nat :: LastWith(stored, listed, coord, k) && b[coord] == listed[k]
            else NoneWith(stored, listed, coord)
  {
    if listed != [] {
      var n := |listed| - 1;
      var front := listed[..n];
      ReboundToLast(stored, front, coord);
      var b := Rebound(stored, map[], front);
      if listed[n] in stored && stored[listed[n]].coord == Some(coord) {
        assert LastWith(stored, listed, coord, n);
      } else if coord in b {
        var k: nat :| LastWith(stored, front, coord, k) && b[coord] == front[k];
        assert LastWith(stored, listed, coord, k);
      }
    }
  }

  function Restarted(stored: Stored, listed: seq<string>): State {
    Bootstrap(State(stored, map[], None), listed)
  }

  /** After a restart a coordinate gets `prior` back exactly if it is active and the last listed with the coordinate. */
  lemma RestartResolves(stored: Stored, listed: seq<string>, coord: string, prior: string, id: string, now: int)
    requires id != prior
    ensures Resolve(Restarted(stored, listed), coord, id, now, false, false).1 == Ok(prior)
            <==> IsActive(stored, prior) && exists k: nat :: LastWith(stored, listed, coord, k) && listed[k] == prior
  {
    ReboundToLast(stored, listed, coord);
    var b := Rebound(stored, map[], listed);
    if k: nat :| LastWith(stored, listed, coord, k) && listed[k] == prior {
      var m: nat :| LastWith(stored, listed, coord, m) && b[coord] == listed[m];
      assert m == k;
    }
  }

  lemma {:induction false} ReboundIsSound(s: State, listed: seq<string>)
    requires Sound(s)
    ensures Sound(s.(bindings := Rebound(s.stored, s.bindings, listed)))
  {
    if listed != [] {
      var front, last := listed[..|listed| - 1], listed[|listed| - 1];
      ReboundIsSound(s, front);
      var t := s.(bindings := Rebound(s.stored, s.bindings, front));
      var t' := s.(bindings := Rebound(s.stored, s.bindings, listed));
      forall c | c in t'.bindings ensures BoundRight(t', c) {
        if c in t.bindings { assert BoundRight(t, c); }
      }
    }
  }

  lemma {:induction false} MostRecentMeans(stored: Stored, listed: seq<string>)
    ensures match MostRecent(stored, listed)
            case None => forall j :: 0 <= j < |listed| ==> !IsActive(stored, listed[j])
            case Some(id) => exists k: nat :: MostRecentAt(stored, listed, k) && listed[k] == id
  {
    if listed != [] {
      var n := |listed| - 1;
      MostRecentMeans(stored, listed[..n]);
      var best := MostRecent(stored, listed[..n]);
      if MostRecent(stored, listed) == best {
        if best.Some? {
          var k: nat :| MostRecentAt(stored, listed[..n], k) && listed[..n][k] == best.value;
          assert MostRecentAt(stored, listed, k);
        }
      } else {
        if best.Some? { var k: nat :| MostRecentAt(stored, listed[..n], k) && listed[..n][k] == best.value; }
        assert MostRecentAt(stored, listed, n);
      }
    }
  }

  ghost predicate MostRecentAt(stored: Stored, listed: seq<string>, k: nat) {
    && k < |listed| && IsActive(stored, listed[k])
    && forall j :: 0 <= j < |listed| && IsActive(stored, listed[j]) ==>
         && stored[listed[j]].updatedAt <= stored[listed[k]].updatedAt
         && (j < k ==> stored[listed[j]].updatedAt < stored[listed[k]].updatedAt)
  }

  /** The active id a restart sets: an active conversation, none updated later, and the first listed of those. */
  lemma RestartFocusesMostRecent(stored: Stored, listed: seq<string>)
    ensures match Restarted(stored, listed).active
            case None => forall j :: 0 <= j < |listed| ==> !IsActive(stored, listed[j])
            case Some(id) => exists k: nat :: MostRecentAt(stored, listed, k) && listed[k] == id
  {
    MostRecentMeans(stored, listed);
  }

  // ---- Whole runs ----

  datatype Op =
    | DoResolve(coord: string, id: string, now: int, getFails: bool, createFails: bool)
    | DoCreate(id: string, now: int, createFails: bool)
    | DoArchive(id: string, running: bool, now: int, getFails: bool, updateFails: bool)
    | DoUnarchive(id: string, now: int, getFails: bool, updateFails: bool)
    | DoSetActive(id: string)
    | DoRestart(listed: seq<string>)

  function Apply(s: State, op: Op): State {
    match op
    case DoResolve(coord, id, now, getFails, createFails) => Resolve(s, coord, id, now, getFails, createFails).0
    case DoCreate(id, now, createFails) => Create(s, id, now, createFails).0
    case DoArchive(id, running, now, getFails, updateFails) => Archive(s, id, running, now, getFails, updateFails).0
    case DoUnarchive(id, now, getFails, updateFails) => Unarchive(s, id, now, getFails, updateFails).0
    case DoSetActive(id) => s.(active := Some(id))
    case DoRestart(listed) => Restarted(s.stored, listed)
  }

  /** Generated ids are new to the store. */
  predicate Fresh(s: State, op: Op) {
    match op
    case DoResolve(_, id, _, _, _) => id !in s.stored
    case DoCreate(id, _, _) => id !in s.stored
    case _ => true
  }

  lemma ApplyKeepsSound(s: State, op: Op)
    requires Sound(s) && Fresh(s, op)
    ensures Sound(Apply(s, op))
  {
    match op
    case DoResolve(coord, id, now, getFails, createFails) =>
      ResolveKeepsSound(s, coord, id, now, getFails, createFails);
    case DoRestart(listed) => ReboundIsSound(State(s.stored, map[], None), listed);
    case _ =>
      forall c | c in Apply(s, op).bindings ensures BoundRight(Apply(s, op), c) { assert BoundRight(s, c); }
  }

  lemma ResolveKeepsSound(s: State, coord: string, id: string, now: int, getFails: bool, createFails: bool)
    requires Sound(s) && id !in s.stored
    ensures Sound(Resolve(s, coord, id, now, getFails, createFails).0)
  {
    var s' := Resolve(s, coord, id, now, getFails, createFails).0;
    forall c | c in s'.bindings ensures BoundRight(s', c) {
      if c in s.bindings { assert BoundRight(s, c); }
    }
  }

  function Exec(s: State, ops: seq<Op>): State {
    if ops == [] then s else Apply(Exec(s, ops[..|ops| - 1]), ops[|ops| - 1])
  }

  /** Whatever is stored at first, with fresh ids the bindings are sound after any sequence of calls and restarts. */
  lemma {:induction false} RunsAreSound(stored: Stored, ops: seq<Op>)
    requires forall k :: 0 <= k < |ops| ==> Fresh(Exec(State(stored, map[], None), ops[..k]), ops[k])
    ensures Sound(Exec(State(stored, map[], None), ops))
  {
    if ops != [] {
      var n := |ops| - 1;
      forall k | 0 <= k < n ensures Fresh(Exec(State(stored, map[], None), ops[..n][..k]), ops[..n][k]) {
        assert ops[..n][..k] == ops[..k];
      }
      RunsAreSound(stored, ops[..n]);
      ApplyKeepsSound(Exec(State(stored, map[], None), ops[..n]), ops[n]);
    }
  }

  /**
   A conversation is archived and its coordinate gets a new one; after a restart that lists the
   archived one last, the coordinate loses the new one and gets a third.
   */
  lemma RestartCanLoseConversation()
    ensures var ops := [DoResolve("c", "a", 0, false, false), DoArchive("a", false, 1, false, false),
                        DoResolve("c", "b", 2, false, false)];
            var s := Exec(State(map[], map[], None), ops);
            && s.stored.Keys == {"a", "b"} && s.bindings == map["c" := "b"] && IsActive(s.stored, "b")
            && Resolve(Restarted(s.stored, ["b", "a"]), "c", "n", 3, false, false).1 == Ok("n")
  {
    var first, second, third :=
      DoResolve("c", "a", 0, false, false), DoArchive("a", false, 1, false, false),
      DoResolve("c", "b", 2, false, false);
    assert [first, second, third][..2] == [first, second] && [first, second][..1] == [first] && [first][..0] == [];
    var s0 := State(map[], map[], None);
    var s1 := Apply(s0, first);
    var s2 := Apply(s1, second);
    var s := Apply(s2, third);
    assert Exec(s0, [first]) == s1 && Exec(s0, [first, second]) == s2;
    assert s.stored == map["a" := Conversation(Archived, Some("c"), 1), "b" := Conversation(Active, Some("c"), 2)];
    assert ["b", "a"][..1] == ["b"] && ["b"][..0] == [];
    assert Rebound(s.stored, map[], ["b"]) == map["c" := "b"];
    assert Rebound(s.stored, map[], ["b", "a"]) == map["c" := "a"];
  }
}
