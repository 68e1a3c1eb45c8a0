/**
 The page store: markdown files by slug as the source of truth, and a table with a unique id
 and a unique slug as their index.
 */
module PageStore {
  import opened Prelude
  import opened Text
  import opened Frontmatter
  import opened PageFrontmatter

  datatype Row = Row(page: Page, content: string)

  /** The table by id, and the files by slug. */
  datatype Store = Store(rows: map<string, Row>, files: map<string, string>)

  /** The table's constraints: the key is the id, and no two rows share a slug. */
  ghost predicate Table(rows: map<string, Row>) {
    && (forall id :: id in rows ==> rows[id].page.id == id)
    && (forall a, b :: a in rows && b in rows && rows[a].page.slug == rows[b].page.slug ==> a == b)
  }

  /** `INSERT OR REPLACE`: rows with the same id or the same slug go. */
  function Insert(rows: map<string, Row>, row: Row): map<string, Row> {
    (map id | id in rows && rows[id].page.slug != row.page.slug :: rows[id])[row.page.id := row]
  }

  lemma InsertKeepsTable(rows: map<string, Row>, row: Row)
    requires Table(rows)
    ensures Table(Insert(rows, row))
  {
  }

  ghost predicate HasSlug(rows: map<string, Row>, slug: string, id: string) {
    id in rows && rows[id].page.slug == slug
  }

  ghost function IdOf(rows: map<string, Row>, slug: string): (r: Option<string>)
    ensures r.Some? ==> HasSlug(rows, slug, r.value)
    ensures r.None? ==> forall id :: !HasSlug(rows, slug, id)
  {
    if id :| HasSlug(rows, slug, id) then Some(id) else None
  }

  function GeneratedId(slug: string): string {
    "page_" + slug
  }

  function FreshId(page: Page): string {
    if page.id == "" then GeneratedId(page.slug) else page.id
  }

  /** The page as an upsert fills it in. */
  ghost function Stamped(rows: map<string, Row>, page: Page, now: int): Page {
    match IdOf(rows, page.slug)
    case Some(id) => page.(id := id, revision := rows[id].page.revision + 1, updatedAt := now)
    case None => page.(id := FreshId(page), createdAt := now, updatedAt := now, revision := 1)
  }

  type Show = Row -> string

  function Printer(cx: Codecs): Show {
    (row: Row) => Serialize(row.page, row.content, cx)
  }

  ghost function Upserted(s: Store, page: Page, content: string, now: int, show: Show): Store {
    var row := Row(Stamped(s.rows, page, now), content);
    Store(Insert(s.rows, row), s.files[page.slug := show(row)])
  }

  ghost function Deleted(s: Store, id: string): Store {
    if id in s.rows then Store(s.rows - {id}, s.files - {s.rows[id].page.slug}) else s
  }

  // ---- The store as code ----

  class MarkdownPageStore {
    var rows: map<string, Row>
    var files: map<string, string>

    ghost function View(): Store
      reads this
    {
      Store(rows, files)
    }

    constructor ()
      ensures View() == Store(map[], map[])
    {
      rows, files := map[], map[];
    }

    method Upsert(page: Page, content: string, now: int, cx: Codecs) returns (p: Page)
      requires Table(rows)
      modifies this
      ensures Table(rows) && p == Stamped(old(rows), page, now)
      ensures View() == Upserted(old(View()), page, content, now, Printer(cx))
      ensures Holds(View(), page, content, now) && CreatedRight(View(), page, now, RowOf(old(View()), page.slug).Some?)
    {
      p := page;
      if id :| id in rows && rows[id].page.slug == page.slug {
        assert HasSlug(rows, page.slug, id);
        p := p.(id := id, revision := rows[id].page.revision + 1, updatedAt := now);
      } else {
        assert IdOf(rows, page.slug).None?;
        if p.id == "" {
          p := p.(id := "page_" + p.slug);
        }
        p := p.(createdAt := now, updatedAt := now, revision := 1);
      }
      InsertKeepsTable(rows, Row(p, content));
      rows := Insert(rows, Row(p, content));
      var markdown := PageFrontmatter.Print(p, content, cx);
      files := files[p.slug := markdown];
      UpsertStores(old(View()), page, content, now, Printer(cx));
    }

    method Delete(id: string) returns (found: bool)
      requires Table(rows)
      modifies this
      ensures Table(rows) && found == (id in old(rows))
      ensures View() == Deleted(old(View()), id) && rows == old(rows) - {id}
      ensures files == if found then old(files) - {old(rows)[id].page.slug} else old(files)
    {
      found := id in rows;
      if found {
        files := files - {rows[id].page.slug};
      }
      rows := rows - {id};
    }

    method CleanupOrphans(seen: set<string>)
      modifies this`rows
      ensures rows == Cleaned(old(rows), seen)
    {
      var todo := rows.Keys;
      while todo != {}
        invariant todo <= old(rows).Keys
        invariant rows == map id | id in old(rows) && (id in todo || old(rows)[id].page.slug in seen) :: old(rows)[id]
        decreases |todo|
      {
        var id :| id in todo;
        todo := todo - {id};
        if rows[id].page.slug !in seen {
          rows := rows - {id};
        }
      }
    }

    /** Directory order, clock readings and the old table do not matter when the files name distinct pages. */
    method RebuildIndex(now: int, cx: Codecs)
      modifies this`rows
      ensures Distinct(files, now, cx) ==> IndexOf(rows, files, now, cx)
    {
      var todo := set name | name in files && !(name != "" && name[0] == '_');
      var seen: set<string> := {};
      ghost var done: set<string> := {};
      while todo != {}
        invariant forall name :: name in files && Visible(name) ==> (name in todo) != (name in done)
        invariant todo <= files.Keys && forall name :: name in todo ==> Visible(name)
        invariant forall name :: name in done ==> name in files && Visible(name)
        invariant Distinct(files, now, cx) ==> Partial(rows, files, done, seen, now, cx)
        decreases |todo|
      {
        var name :| name in todo;
        todo := todo - {name};
        var parsed := Parse(files[name], now, now, cx);
        if parsed.Some? && parsed.value.0.id != "" && parsed.value.0.slug != "" {
          var row := Row(parsed.value.0, parsed.value.1);
          if Distinct(files, now, cx) { IndexStep(rows, files, done, seen, name, row, now, cx); }
          seen := seen + {row.page.slug};
          rows := Insert(rows, row);
        } else {
          if Distinct(files, now, cx) { SkipStep(rows, files, done, seen, name, now, cx); }
        }
        done := done + {name};
      }
      if Distinct(files, now, cx) { CleanedIsIndex(rows, files, done, seen, now, cx); }
      CleanupOrphans(seen);
    }
  }

  // ---- Rebuilding ----

  /** The rows whose slug was seen. */
  function Cleaned(rows: map<string, Row>, seen: set<string>): map<string, Row> {
    map id | id in rows && rows[id].page.slug in seen :: rows[id]
  }

  predicate Visible(name: string) {
    !(name != "" && name[0] == '_')
  }

  /** The row a file stands for, if it parses and names itself. */
  function RowIn(text: string, now: int, cx: Codecs): Option<Row> {
    match ParsePage(text, now, now, cx)
    case None => None
    case Some((page, content)) => if page.id == "" || page.slug == "" then None else Some(Row(page, content))
  }

  ghost predicate Stands(files: map<string, string>, name: string, row: Row, now: int, cx: Codecs) {
    name in files && Visible(name) && RowIn(files[name], now, cx) == Some(row)
  }

  /** No two files claim one id or one slug. */
  ghost predicate Distinct(files: map<string, string>, now: int, cx: Codecs) {
    forall m, n, a, b :: Stands(files, m, a, now, cx) && Stands(files, n, b, now, cx) && m != n ==>
      a.page.id != b.page.id && a.page.slug != b.page.slug
  }

  ghost predicate Listed(rows: map<string, Row>, row: Row) {
    row.page.id in rows && rows[row.page.id] == row
  }

  /** The table holds exactly the rows the files stand for. */
  ghost predicate IndexOf(rows: map<string, Row>, files: map<string, string>, now: int, cx: Codecs) {
    && (forall name, row :: Stands(files, name, row, now, cx) ==> Listed(rows, row))
    && (forall id :: id in rows ==> rows[id].page.id == id && exists name :: Stands(files, name, rows[id], now, cx))
  }

  /** A file whose name starts with an underscore is not looked at. */
  lemma HiddenFilesAreSkipped(
    rows: map<string, Row>, files: map<string, string>, name: string, text: string, now: int, cx: Codecs)
    requires name != "" && name[0] == '_' && name !in files
    ensures IndexOf(rows, files[name := text], now, cx) <==> IndexOf(rows, files, now, cx)
  {
    var more := files[name := text];
    assert forall n, row :: Stands(more, n, row, now, cx) <==> Stands(files, n, row, now, cx);
  }

  /** Nor does a file count whose header gives no id or no slug. */
  lemma UnnamedFilesAreSkipped(fields: seq<Field>, title: string, content: string, now: int, cx: Codecs)
    requires fields != [] && PlainFields(fields) && PlainValue(title) && (title != "" || Trim(content) != "")
    ensures RowIn(Document(fields, title, content), now, cx).None? <==>
            LastValue(fields, "id").UnwrapOr("") == "" || LastValue(fields, "slug").UnwrapOr("") == ""
  {
    AnyHeaderIsRead(fields, title, content, now, now, cx);
  }

  /** After the files in `done`: their rows are in, and every row with a seen slug is one of theirs. */
  ghost predicate Partial(
    rows: map<string, Row>, files: map<string, string>, done: set<string>, seen: set<string>, now: int, cx: Codecs)
  {
    && (forall name, row :: name in done && Stands(files, name, row, now, cx) ==>
         Listed(rows, row) && row.page.slug in seen)
    && (forall id :: id in rows && rows[id].page.slug in seen ==>
          rows[id].page.id == id && exists name :: name in done && Stands(files, name, rows[id], now, cx))
  }

  lemma IndexStep(
    rows: map<string, Row>, files: map<string, string>, done: set<string>, seen: set<string>, name: string, row: Row,
    now: int, cx: Codecs)
    requires Distinct(files, now, cx) && Partial(rows, files, done, seen, now, cx)
    requires Stands(files, name, row, now, cx) && name !in done
    ensures Partial(Insert(rows, row), files, done + {name}, seen + {row.page.slug}, now, cx)
  {
    var rows' := Insert(rows, row);
    forall m, a | m in done + {name} && Stands(files, m, a, now, cx)
      ensures Listed(rows', a) && a.page.slug in seen + {row.page.slug}
    {
      if m != name { assert Listed(rows, a); }
    }
    forall id | id in rows' && rows'[id].page.slug in seen + {row.page.slug}
      ensures rows'[id].page.id == id && exists m :: m in done + {name} && Stands(files, m, rows'[id], now, cx)
    {
      if rows'[id] == row {
        assert Stands(files, name, rows'[id], now, cx);
      } else {
        var m :| m in done && Stands(files, m, rows[id], now, cx);
        assert m in done + {name};
      }
    }
  }

  lemma SkipStep(
    rows: map<string, Row>, files: map<string, string>, done: set<string>, seen: set<string>, name: string, now: int,
    cx: Codecs)
    requires Partial(rows, files, done, seen, now, cx)
    requires forall row :: !Stands(files, name, row, now, cx)
    ensures Partial(rows, files, done + {name}, seen, now, cx)
  {
    forall id | id in rows && rows[id].page.slug in seen
      ensures exists m :: m in done + {name} && Stands(files, m, rows[id], now, cx)
    {
      var m :| m in done && Stands(files, m, rows[id], now, cx);
      assert m in done + {name};
    }
  }

  lemma CleanedIsIndex(
    rows: map<string, Row>, files: map<string, string>, done: set<string>, seen: set<string>, now: int, cx: Codecs)
    requires Partial(rows, files, done, seen, now, cx)
    requires forall name :: name in files && Visible(name) ==> name in done
    ensures IndexOf(Cleaned(rows, seen), files, now, cx)
  {
    forall name, row | Stands(files, name, row, now, cx) ensures Listed(Cleaned(rows, seen), row) {
      assert name in done;
    }
  }

  // ---- Rows and files agree ----

  ghost predicate Filed(files: map<string, string>, row: Row, show: Show) {
    row.page.slug in files && files[row.page.slug] == show(row)
  }

  /** Each row has its file and each file its row. */
  ghost predicate Agree(s: Store, show: Show) {
    && Table(s.rows)
    && (forall id :: id in s.rows ==> Filed(s.files, s.rows[id], show))
    && (forall slug :: slug in s.files ==> IdOf(s.rows, slug).Some?)
  }

  lemma SlugIsFound(rows: map<string, Row>, slug: string, id: string)
    requires HasSlug(rows, slug, id)
    ensures IdOf(rows, slug).Some?
  {
  }

  /** An upsert keeps rows and files in agreement exactly unless it creates a page under an id another page has. */
  lemma UpsertAgrees(s: Store, page: Page, content: string, now: int, show: Show)
    requires Agree(s, show)
    ensures Agree(Upserted(s, page, content, now, show), show)
            <==> IdOf(s.rows, page.slug).Some? || FreshId(page) !in s.rows
  {
    if IdOf(s.rows, page.slug).Some? || FreshId(page) !in s.rows {
      UpsertKeeps(s, page, content, now, show);
    } else {
      OrphanedFile(s, page, content, now, show);
    }
  }

  lemma UpsertKeeps(s: Store, page: Page, content: string, now: int, show: Show)
    requires Agree(s, show) && (IdOf(s.rows, page.slug).Some? || FreshId(page) !in s.rows)
    ensures Agree(Upserted(s, page, content, now, show), show)
  {
    var s' := Upserted(s, page, content, now, show);
    var row := Row(Stamped(s.rows, page, now), content);
    InsertKeepsTable(s.rows, row);
    forall id | id in s'.rows ensures Filed(s'.files, s'.rows[id], show) {
      if id != row.page.id { assert Filed(s.files, s.rows[id], show); }
    }
    forall slug | slug in s'.files ensures IdOf(s'.rows, slug).Some? {
      if slug == page.slug {
        SlugIsFound(s'.rows, slug, row.page.id);
      } else {
        var id := IdOf(s.rows, slug).value;
        SlugIsFound(s'.rows, slug, id);
      }
    }
  }

  /** The page whose id was taken over keeps its file but loses its row. */
  lemma OrphanedFile(s: Store, page: Page, content: string, now: int, show: Show)
    requires Agree(s, show) && IdOf(s.rows, page.slug).None? && FreshId(page) in s.rows
    ensures var s', slug := Upserted(s, page, content, now, show), s.rows[FreshId(page)].page.slug;
            slug in s'.files && IdOf(s'.rows, slug).None?
  {
    var s', taken := Upserted(s, page, content, now, show), FreshId(page);
    var slug := s.rows[taken].page.slug;
    assert HasSlug(s.rows, slug, taken);
    assert Filed(s.files, s.rows[taken], show);
    forall id ensures !HasSlug(s'.rows, slug, id) {
      if id != taken && id in s'.rows { assert s'.rows[id] == s.rows[id]; }
    }
  }

  lemma DeleteAgrees(s: Store, id: string, show: Show)
    requires Agree(s, show)
    ensures Agree(Deleted(s, id), show)
  {
    var s' := Deleted(s, id);
    forall slug | slug in s'.files ensures IdOf(s'.rows, slug).Some? {
      SlugIsFound(s'.rows, slug, IdOf(s.rows, slug).value);
    }
    forall k | k in s'.rows ensures Filed(s'.files, s'.rows[k], show) {
      assert Filed(s.files, s.rows[k], show);
    }
  }

  function Titleless(id: string, slug: string): Page {
    Page(id, "", slug, [], [], 0, 0, 1)
  }

  /** Two pages upserted under one id: rows and files disagree, and the first page has a file and no row. */
  lemma OneIdForTwoPages(show: Show)
    ensures var first := Upserted(EMPTY, Titleless("p", "a"), "", 0, show);
            var second := Upserted(first, Titleless("p", "b"), "", 0, show);
            && Agree(first, show) && !Agree(second, show)
            && "a" in second.files && IdOf(second.rows, "a").None?
  {
    UpsertAgrees(EMPTY, Titleless("p", "a"), "", 0, show);
    var first := Upserted(EMPTY, Titleless("p", "a"), "", 0, show);
    assert first.rows.Keys == {"p"} && first.rows["p"].page.slug == "a";
    OrphanedFile(first, Titleless("p", "b"), "", 0, show);
    UpsertAgrees(first, Titleless("p", "b"), "", 0, show);
  }

  lemma IdIs(rows: map<string, Row>, slug: string, id: string)
    requires Table(rows) && HasSlug(rows, slug, id)
    ensures IdOf(rows, slug) == Some(id)
  {
  }

  /** Upserting a live slug keeps its id and raises its revision by one; a new slug starts at one. */
  lemma RevisionsCount(s: Store, page: Page, content: string, now: int, show: Show)
    requires Table(s.rows)
    ensures var s', id := Upserted(s, page, content, now, show), Stamped(s.rows, page, now).id;
            && IdOf(s'.rows, page.slug) == Some(id)
            && match IdOf(s.rows, page.slug)
               case Some(live) => id == live && s'.rows[id].page.revision == s.rows[id].page.revision + 1
               case None => s'.rows[id].page.revision == 1
  {
    var row := Row(Stamped(s.rows, page, now), content);
    InsertKeepsTable(s.rows, row);
    IdIs(Insert(s.rows, row), page.slug, row.page.id);
  }

  ghost function RowOf(s: Store, slug: string): Option<Row> {
    match IdOf(s.rows, slug)
    case Some(id) => Some(s.rows[id])
    case None => None
  }

  /** The slug's row carries what the upsert was given, and there is a file. */
  ghost predicate Holds(s: Store, page: Page, content: string, now: int) {
    && page.slug in s.files && RowOf(s, page.slug).Some?
    && var row := RowOf(s, page.slug).value;
    && row.content == content && row.page.title == page.title && row.page.slug == page.slug
    && row.page.tags == page.tags && row.page.sourceIds == page.sourceIds && row.page.updatedAt == now
  }

  /** A new page is created now; an update takes the caller's date. */
  ghost predicate CreatedRight(s: Store, page: Page, now: int, live: bool) {
    RowOf(s, page.slug).Some? && RowOf(s, page.slug).value.page.createdAt == if live then page.createdAt else now
  }

  lemma UpsertStores(s: Store, page: Page, content: string, now: int, show: Show)
    requires Table(s.rows)
    ensures var s' := Upserted(s, page, content, now, show);
            && Holds(s', page, content, now) && CreatedRight(s', page, now, RowOf(s, page.slug).Some?)
            && s'.files[page.slug] == show(RowOf(s', page.slug).value)
  {
    var row := Row(Stamped(s.rows, page, now), content);
    InsertKeepsTable(s.rows, row);
    IdIs(Insert(s.rows, row), page.slug, row.page.id);
  }

  /** The file of an upserted page parses to the page as stored and the content given, trimmed. */
  lemma UpsertedFileParses(s: Store, page: Page, content: string, now: int, created: int, updated: int, cx: Codecs)
    requires Table(s.rows) && (page.title != "" || Trim(content) != "")
    requires var row := RowOf(Upserted(s, page, content, now, Printer(cx)), page.slug);
             row.Some? && PlainPage(row.value.page, cx)
    ensures var s' := Upserted(s, page, content, now, Printer(cx));
            && Holds(s', page, content, now)
            && ParsePage(s'.files[page.slug], created, updated, cx)
               == Some((RowOf(s', page.slug).value.page, Trim(content)))
  {
    UpsertStores(s, page, content, now, Printer(cx));
    var row := RowOf(Upserted(s, page, content, now, Printer(cx)), page.slug).value;
    PageRoundTrip(row.page, content, created, updated, cx);
  }

  // ---- Whole runs ----

  datatype Op = UpsertOp(page: Page, content: string, now: int) | DeleteOp(id: string)

  ghost function Apply(s: Store, op: Op, show: Show): Store {
    match op
    case UpsertOp(page, content, now) => Upserted(s, page, content, now, show)
    case DeleteOp(id) => Deleted(s, id)
  }

  ghost function Exec(s: Store, ops: seq<Op>, show: Show): Store {
    if ops == [] then s else Apply(Exec(s, ops[..|ops| - 1], show), ops[|ops| - 1], show)
  }

  const EMPTY := Store(map[], map[])

  /** All ids are the store's own. */
  ghost predicate Generated(rows: map<string, Row>) {
    forall id :: id in rows ==> id == GeneratedId(rows[id].page.slug)
  }

  lemma GeneratedIdTells(a: string, b: string)
    requires GeneratedId(a) == GeneratedId(b)
    ensures a == b
  {
    assert GeneratedId(a)[5..] == a && GeneratedId(b)[5..] == b;
  }

  /** The page leaves its id to the store, or carries the id the store gives it. */
  predicate OwnId(page: Page) {
    page.id == "" || page.id == GeneratedId(page.slug)
  }

  /** The upsert creates no page under an id that a page already has. */
  ghost predicate Safe(s: Store, op: Op) {
    op.UpsertOp? ==> IdOf(s.rows, op.page.slug).Some? || FreshId(op.page) !in s.rows
  }

  /** The upsert is of a live slug, whatever id the page carries, or of a page with the store's own id. */
  ghost predicate Own(s: Store, op: Op) {
    op.UpsertOp? ==> IdOf(s.rows, op.page.slug).Some? || OwnId(op.page)
  }

  /** A generated id is taken only by the page with that slug. */
  lemma OwnIsSafe(s: Store, op: Op)
    requires Generated(s.rows) && Own(s, op)
    ensures Safe(s, op)
  {
    if op.UpsertOp? && FreshId(op.page) in s.rows {
      if OwnId(op.page) {
        GeneratedIdTells(s.rows[FreshId(op.page)].page.slug, op.page.slug);
        SlugIsFound(s.rows, op.page.slug, FreshId(op.page));
      }
    }
  }

  lemma SafeAgrees(s: Store, op: Op, show: Show)
    requires Agree(s, show)
    ensures Agree(Apply(s, op, show), show) <==> Safe(s, op)
  {
    match op
    case UpsertOp(page, content, now) => UpsertAgrees(s, page, content, now, show);
    case DeleteOp(id) => DeleteAgrees(s, id, show);
  }

  ghost predicate SafeRun(ops: seq<Op>, show: Show) {
    forall k :: 0 <= k < |ops| ==> Safe(Exec(EMPTY, ops[..k], show), ops[k])
  }

  ghost predicate AgreesThroughout(ops: seq<Op>, show: Show) {
    forall k :: 0 <= k <= |ops| ==> Agree(Exec(EMPTY, ops[..k], show), show)
  }

  lemma ExecNext(ops: seq<Op>, k: nat, show: Show)
    requires k < |ops|
    ensures Exec(EMPTY, ops[..k + 1], show) == Apply(Exec(EMPTY, ops[..k], show), ops[k], show)
  {
    assert ops[..k + 1][..k] == ops[..k];
  }

  lemma {:induction false} SafePrefixAgrees(ops: seq<Op>, k: nat, show: Show)
    requires k <= |ops| && SafeRun(ops, show)
    ensures Agree(Exec(EMPTY, ops[..k], show), show)
  {
    if k > 0 {
      SafePrefixAgrees(ops, k - 1, show);
      ExecNext(ops, k - 1, show);
      SafeAgrees(Exec(EMPTY, ops[..k - 1], show), ops[k - 1], show);
    }
  }

  /** Whatever ids pages carry, rows and files agree all through a run exactly if every upsert in it is safe. */
  lemma RunsAgreeIff(ops: seq<Op>, show: Show)
    ensures AgreesThroughout(ops, show) <==> SafeRun(ops, show)
  {
    if SafeRun(ops, show) {
      forall k | 0 <= k <= |ops| ensures Agree(Exec(EMPTY, ops[..k], show), show) { SafePrefixAgrees(ops, k, show); }
    }
    if AgreesThroughout(ops, show) {
      forall k | 0 <= k < |ops| ensures Safe(Exec(EMPTY, ops[..k], show), ops[k]) {
        ExecNext(ops, k, show);
        assert Agree(Exec(EMPTY, ops[..k + 1], show), show);
        SafeAgrees(Exec(EMPTY, ops[..k], show), ops[k], show);
      }
    }
  }

  /** Every upsert is of a live slug or of a page with the store's own id. */
  ghost predicate OwnRun(ops: seq<Op>, show: Show) {
    forall k :: 0 <= k < |ops| ==> Own(Exec(EMPTY, ops[..k], show), ops[k])
  }

  lemma OwnPrefix(ops: seq<Op>, show: Show)
    requires OwnRun(ops, show) && ops != []
    ensures OwnRun(ops[..|ops| - 1], show) && Own(Exec(EMPTY, ops[..|ops| - 1], show), ops[|ops| - 1])
  {
    var front := ops[..|ops| - 1];
    forall k | 0 <= k < |front| ensures Own(Exec(EMPTY, front[..k], show), front[k]) {
      assert front[..k] == ops[..k];
    }
  }

  /** Pages that carry no id but the store's own make such a run. */
  lemma OwnIdsMakeOwnRun(ops: seq<Op>, show: Show)
    requires forall k :: 0 <= k < |ops| ==> (ops[k].UpsertOp? ==> OwnId(ops[k].page))
    ensures OwnRun(ops, show)
  {
  }

  lemma ApplyKeepsGenerated(s: Store, op: Op, show: Show)
    requires Table(s.rows) && Generated(s.rows) && Own(s, op)
    ensures Generated(Apply(s, op, show).rows)
  {
  }

  lemma ApplyAgrees(s: Store, op: Op, show: Show)
    requires Agree(s, show) && Generated(s.rows) && Own(s, op)
    ensures Agree(Apply(s, op, show), show) && Generated(Apply(s, op, show).rows)
  {
    OwnIsSafe(s, op);
    SafeAgrees(s, op, show);
    ApplyKeepsGenerated(s, op, show);
  }

  /** Then rows and files describe the same pages, under the store's own ids. */
  lemma {:induction false} RunsAgree(ops: seq<Op>, show: Show)
    requires OwnRun(ops, show)
    ensures Agree(Exec(EMPTY, ops, show), show) && Generated(Exec(EMPTY, ops, show).rows)
  {
    if ops != [] {
      OwnPrefix(ops, show);
      RunsAgree(ops[..|ops| - 1], show);
      ApplyAgrees(Exec(EMPTY, ops[..|ops| - 1], show), ops[|ops| - 1], show);
    }
  }

  /** The upserts of a slug since its page was last deleted. */
  function Upserts(ops: seq<Op>, slug: string): nat {
    if ops == [] then 0
    else
      var before := Upserts(ops[..|ops| - 1], slug);
      match ops[|ops| - 1]
      case UpsertOp(page, _, _) => if page.slug == slug then before + 1 else before
      case DeleteOp(id) => if id == GeneratedId(slug) then 0 else before
  }

  /** The revision of a live slug, and 0 for any other. */
  ghost function RevisionOf(s: Store, slug: string): nat {
    match RowOf(s, slug)
    case Some(row) => row.page.revision
    case None => 0
  }

  lemma UpsertElsewhere(s: Store, page: Page, content: string, now: int, show: Show, slug: string)
    requires Agree(s, show) && Safe(s, UpsertOp(page, content, now)) && slug != page.slug
    ensures RowOf(Upserted(s, page, content, now, show), slug) == RowOf(s, slug)
  {
    var row := Row(Stamped(s.rows, page, now), content);
    var rows := Insert(s.rows, row);
    InsertKeepsTable(s.rows, row);
    match IdOf(s.rows, slug)
    case Some(id) => IdIs(rows, slug, id);
    case None =>
      forall id ensures !HasSlug(rows, slug, id) { assert !HasSlug(s.rows, slug, id); }
  }

  lemma DeletedRow(s: Store, id: string, slug: string)
    requires Table(s.rows) && Generated(s.rows)
    ensures RowOf(Deleted(s, id), slug) == if id == GeneratedId(slug) then None else RowOf(s, slug)
  {
    var rows := Deleted(s, id).rows;
    assert Table(rows);
    match IdOf(s.rows, slug)
    case Some(live) =>
      if live != id {
        IdIs(rows, slug, live);
      } else {
        forall k ensures !HasSlug(rows, slug, k) { assert HasSlug(s.rows, slug, live); }
      }
    case None =>
      forall k ensures !HasSlug(rows, slug, k) { assert !HasSlug(s.rows, slug, k); }
  }

  /** After any run, a slug's revision is the number of its upserts since it was last created. */
  lemma {:induction false} RevisionsAreCounted(ops: seq<Op>, show: Show, slug: string)
    requires OwnRun(ops, show)
    ensures RevisionOf(Exec(EMPTY, ops, show), slug) == Upserts(ops, slug)
  {
    if ops != [] {
      var front, s := ops[..|ops| - 1], Exec(EMPTY, ops[..|ops| - 1], show);
      OwnPrefix(ops, show);
      RevisionsAreCounted(front, show, slug);
      RunsAgree(front, show);
      OwnIsSafe(s, ops[|ops| - 1]);
      match ops[|ops| - 1]
      case UpsertOp(page, content, now) =>
        if page.slug == slug { RevisionsCount(s, page, content, now, show); }
        else { UpsertElsewhere(s, page, content, now, show, slug); }
      case DeleteOp(id) => DeletedRow(s, id, slug);
    }
  }

  /** The last upsert of a slug, if its page was not deleted since. */
  function LastUpsert(ops: seq<Op>, slug: string): (r: Option<Op>)
    ensures r.Some? ==> r.value.UpsertOp? && r.value.page.slug == slug && r.value in ops
  {
    if ops == [] then None
    else
      var op := ops[|ops| - 1];
      if op.UpsertOp? && op.page.slug == slug then Some(op)
      else if op == DeleteOp(GeneratedId(slug)) then None
      else LastUpsert(ops[..|ops| - 1], slug)
  }

  /** After any run a slug is live exactly if it was upserted and not deleted since, and then holds what came last. */
  lemma {:induction false} LastUpsertIsKept(ops: seq<Op>, show: Show, slug: string)
    requires OwnRun(ops, show)
    ensures var s := Exec(EMPTY, ops, show);
            match LastUpsert(ops, slug)
            case None => RowOf(s, slug).None? && slug !in s.files
            case Some(op) => Holds(s, op.page, op.content, op.now) && s.files[slug] == show(RowOf(s, slug).value)
  {
    RunsAgree(ops, show);
    FileOfRow(Exec(EMPTY, ops, show), slug, show);
    if ops != [] {
      var front, s := ops[..|ops| - 1], Exec(EMPTY, ops[..|ops| - 1], show);
      OwnPrefix(ops, show);
      LastUpsertIsKept(front, show, slug);
      RunsAgree(front, show);
      OwnIsSafe(s, ops[|ops| - 1]);
      match ops[|ops| - 1]
      case UpsertOp(page, content, now) =>
        if page.slug == slug { UpsertStores(s, page, content, now, show); }
        else { UpsertElsewhere(s, page, content, now, show, slug); }
      case DeleteOp(id) => DeletedRow(s, id, slug);
    }
  }

  lemma FileOfRow(s: Store, slug: string, show: Show)
    requires Agree(s, show)
    ensures if RowOf(s, slug).Some? then slug in s.files && s.files[slug] == show(RowOf(s, slug).value)
            else slug !in s.files
  {
    match IdOf(s.rows, slug)
    case Some(id) => assert Filed(s.files, s.rows[id], show);
    case None =>
  }

  // ---- Rebuilding what was stored ----

  /** The rows as their files keep them: contents trimmed. */
  function AsFiled(rows: map<string, Row>): map<string, Row> {
    map id | id in rows :: rows[id].(content := Trim(rows[id].content))
  }

  ghost predicate Fileable(row: Row, cx: Codecs) {
    && PlainPage(row.page, cx) && row.page.id != "" && row.page.slug != "" && Visible(row.page.slug)
    && (row.page.title != "" || Trim(row.content) != "")
  }

  ghost predicate AllFileable(rows: map<string, Row>, cx: Codecs) {
    forall id :: id in rows ==> Fileable(rows[id], cx)
  }

  lemma FileStandsForRow(s: Store, id: string, now: int, cx: Codecs)
    requires Agree(s, Printer(cx)) && id in s.rows && Fileable(s.rows[id], cx)
    ensures Stands(s.files, s.rows[id].page.slug, AsFiled(s.rows)[id], now, cx)
  {
    var row := s.rows[id];
    assert Filed(s.files, row, Printer(cx));
    PageRoundTrip(row.page, row.content, now, now, cx);
  }

  lemma StandsOnlyForRow(s: Store, name: string, row: Row, now: int, cx: Codecs)
    requires Agree(s, Printer(cx)) && Stands(s.files, name, row, now, cx)
    requires AllFileable(s.rows, cx)
    ensures row.page.slug == name && row.page.id in s.rows && AsFiled(s.rows)[row.page.id] == row
  {
    var id := IdOf(s.rows, name).value;
    FileStandsForRow(s, id, now, cx);
  }

  /** Whatever the table held, rebuilding it from agreeing files gives back the rows, contents trimmed. */
  lemma RebuildReproduces(s: Store, rebuilt: map<string, Row>, now: int, cx: Codecs)
    requires Agree(s, Printer(cx)) && AllFileable(s.rows, cx)
    ensures Distinct(s.files, now, cx)
    ensures IndexOf(rebuilt, s.files, now, cx) <==> rebuilt == AsFiled(s.rows)
  {
    forall m, n, a, b | Stands(s.files, m, a, now, cx) && Stands(s.files, n, b, now, cx) && m != n
      ensures a.page.id != b.page.id && a.page.slug != b.page.slug
    {
      StandsOnlyForRow(s, m, a, now, cx);
      StandsOnlyForRow(s, n, b, now, cx);
    }
    if IndexOf(rebuilt, s.files, now, cx) {
      IndexIsFiled(s, rebuilt, now, cx);
    }
    if rebuilt == AsFiled(s.rows) {
      FiledIsIndex(s, now, cx);
    }
  }

  lemma RebuiltRow(s: Store, rebuilt: map<string, Row>, id: string, now: int, cx: Codecs)
    requires Agree(s, Printer(cx)) && AllFileable(s.rows, cx) && IndexOf(rebuilt, s.files, now, cx)
    ensures SameAt(rebuilt, AsFiled(s.rows), id)
  {
    if id in rebuilt {
      var name :| Stands(s.files, name, rebuilt[id], now, cx);
      StandsOnlyForRow(s, name, rebuilt[id], now, cx);
    }
    if id in s.rows {
      FileStandsForRow(s, id, now, cx);
      assert Listed(rebuilt, AsFiled(s.rows)[id]);
    }
  }

  lemma IndexIsFiled(s: Store, rebuilt: map<string, Row>, now: int, cx: Codecs)
    requires Agree(s, Printer(cx)) && AllFileable(s.rows, cx) && IndexOf(rebuilt, s.files, now, cx)
    ensures rebuilt == AsFiled(s.rows)
  {
    forall id ensures SameAt(rebuilt, AsFiled(s.rows), id) {
      RebuiltRow(s, rebuilt, id, now, cx);
    }
    SameEverywhere(rebuilt, AsFiled(s.rows));
  }

  ghost predicate SameAt(a: map<string, Row>, b: map<string, Row>, id: string) {
    (id in a <==> id in b) && (id in a ==> a[id] == b[id])
  }

  lemma SameEverywhere(a: map<string, Row>, b: map<string, Row>)
    requires forall id :: SameAt(a, b, id)
    ensures a == b
  {
    forall id ensures (id in a <==> id in b) && (id in a ==> a[id] == b[id]) {
      assert SameAt(a, b, id);
    }
  }

  lemma FiledIsIndex(s: Store, now: int, cx: Codecs)
    requires Agree(s, Printer(cx)) && AllFileable(s.rows, cx)
    ensures IndexOf(AsFiled(s.rows), s.files, now, cx)
  {
    var filed := AsFiled(s.rows);
    forall name, row | Stands(s.files, name, row, now, cx) ensures Listed(filed, row) {
      StandsOnlyForRow(s, name, row, now, cx);
    }
    forall id | id in filed ensures exists name :: Stands(s.files, name, filed[id], now, cx) {
      FileStandsForRow(s, id, now, cx);
    }
  }
}
