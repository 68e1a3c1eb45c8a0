/** Wiki pages as markdown files. */
module PageFrontmatter {
  import opened Prelude
  import opened Text
  import opened Frontmatter

  datatype Page = Page(
    id: string, title: string, slug: string, tags: seq<string>, sourceIds: seq<string>,
    createdAt: int, updatedAt: int, revision: nat)

  /** Printing and parsing of instants and numbers. */
  datatype Codecs = Codecs(
    printTime: int -> string, parseTime: string -> Option<int>,
    printNat: nat -> string, parseNat: string -> Option<nat>)

  datatype Key = Id | Slug | Tags | SourceIds | Revision | Created | Updated

  function Name(key: Key): string {
    match key
    case Id => "id"
    case Slug => "slug"
    case Tags => "tags"
    case SourceIds => "source_ids"
    case Revision => "revision"
    case Created => "created"
    case Updated => "updated"
  }

  function KeyOf(s: string): Option<Key> {
    if s == "id" then Some(Id)
    else if s == "slug" then Some(Slug)
    else if s == "tags" then Some(Tags)
    else if s == "source_ids" then Some(SourceIds)
    else if s == "revision" then Some(Revision)
    else if s == "created" then Some(Created)
    else if s == "updated" then Some(Updated)
    else None
  }

  lemma KeysAreTold(key: Key)
    ensures KeyOf(Name(key)) == Some(key) && PlainKey(Name(key))
  {
    assert "tags"[0] != "slug"[0] && "updated"[0] != "created"[0];
  }

  // ---- Printing ----

  function NameFields(p: Page): seq<Field> {
    [Field(Name(Id), p.id), Field(Name(Slug), p.slug)]
  }

  function NumberFields(p: Page, cx: Codecs): seq<Field> {
    [Field(Name(Revision), cx.printNat(p.revision)),
     Field(Name(Created), cx.printTime(p.createdAt)), Field(Name(Updated), cx.printTime(p.updatedAt))]
  }

  function PageFields(p: Page, cx: Codecs): seq<Field> {
    NameFields(p) + ArrayField(Name(Tags), p.tags) + ArrayField(Name(SourceIds), p.sourceIds) + NumberFields(p, cx)
  }

  function Serialize(p: Page, content: string, cx: Codecs): string {
    Document(PageFields(p, cx), p.title, content)
  }

  method PrintNumbers(start: string, ghost fields: seq<Field>, p: Page, cx: Codecs) returns (fm: string)
    requires start == "---\n" + Header(fields)
    ensures fm == "---\n" + Header(fields + NumberFields(p, cx))
  {
    var r := Field(Name(Revision), cx.printNat(p.revision));
    var c, u := Field(Name(Created), cx.printTime(p.createdAt)), Field(Name(Updated), cx.printTime(p.updatedAt));
    fm := PushField(start, fields, r.key, r.value);
    fm := PushField(fm, fields + [r], c.key, c.value);
    fm := PushField(fm, fields + [r] + [c], u.key, u.value);
    assert fields + [r] + [c] + [u] == fields + [r, c, u];
  }

  /** The printer as it appends to its buffer. */
  method Print(p: Page, content: string, cx: Codecs) returns (fm: string)
    ensures fm == Serialize(p, content, cx)
  {
    ghost var f := [];
    fm := PushField("---\n", f, Name(Id), p.id);
    f := f + [Field(Name(Id), p.id)];
    fm := PushField(fm, f, Name(Slug), p.slug);
    f := f + [Field(Name(Slug), p.slug)];
    assert f == NameFields(p);
    fm := PushArray(fm, f, Name(Tags), p.tags);
    f := f + ArrayField(Name(Tags), p.tags);
    fm := PushArray(fm, f, Name(SourceIds), p.sourceIds);
    f := f + ArrayField(Name(SourceIds), p.sourceIds);
    fm := PrintNumbers(fm, f, p, cx);
    fm := fm + "---\n\n" + Body(p.title, content);
  }

  // ---- Parsing ----

  function Assign(p: Page, key: Key, value: string, cx: Codecs): Page {
    match key
    case Id => p.(id := value)
    case Slug => p.(slug := value)
    case Tags => p.(tags := ParseArray(value))
    case SourceIds => p.(sourceIds := ParseArray(value))
    case Revision => p.(revision := cx.parseNat(value).UnwrapOr(1))
    case Created => p.(createdAt := cx.parseTime(value).UnwrapOr(p.createdAt))
    case Updated => p.(updatedAt := cx.parseTime(value).UnwrapOr(p.updatedAt))
  }

  function SetField(p: Page, f: Field, cx: Codecs): Page {
    var key := KeyOf(f.key);
    if key.Some? then Assign(p, key.value, f.value, cx) else p
  }

  function SetAll(p: Page, fields: seq<Field>, cx: Codecs): Page {
    if fields == [] then p else SetField(SetAll(p, fields[..|fields| - 1], cx), fields[|fields| - 1], cx)
  }

  function Blank(created: int, updated: int): Page {
    Page("", "", "", [], [], created, updated, 1)
  }

  /** The result of parsing; `created` and `updated` are the clock readings used as defaults. */
  function ParsePage(text: string, created: int, updated: int, cx: Codecs): Option<(Page, string)> {
    match ReadDocument(text)
    case None => None
    case Some(r) => Some((SetAll(Blank(created, updated), r.fields, cx).(title := r.title), r.content))
  }

  method Parse(text: string, created: int, updated: int, cx: Codecs) returns (r: Option<(Page, string)>)
    ensures r == ParsePage(text, created, updated, cx)
  {
    var split := SplitFrontmatter(text);
    if split.None? {
      return None;
    }
    var (yaml, body) := split.value;
    var lines := Lines(yaml);
    var p := Blank(created, updated);
    for i := 0 to |lines|
      invariant p == SetAll(Blank(created, updated), ReadLines(lines[..i]), cx)
    {
      LineStep(Blank(created, updated), lines, i, cx);
      var f := ReadLine(lines[i]);
      if f.Some? {
        p := SetField(p, f.value, cx);
      }
    }
    assert lines[..|lines|] == lines;
    var (title, content) := ExtractTitle(body);
    return Some((p.(title := title), content));
  }

  lemma SetAllPush(p: Page, fields: seq<Field>, f: Field, cx: Codecs)
    ensures SetAll(p, fields + [f], cx) == SetField(SetAll(p, fields, cx), f, cx)
  {
    assert (fields + [f])[..|fields|] == fields;
  }

  lemma LineStep(p: Page, lines: seq<string>, i: nat, cx: Codecs)
    requires i < |lines|
    ensures var before, f := SetAll(p, ReadLines(lines[..i]), cx), ReadLine(lines[i]);
            SetAll(p, ReadLines(lines[..i + 1]), cx) == if f.Some? then SetField(before, f.value, cx) else before
  {
    assert lines[..i + 1][..i] == lines[..i];
    var f := ReadLine(lines[i]);
    if f.Some? {
      SetAllPush(p, ReadLines(lines[..i]), f.value, cx);
    } else {
      assert ReadLines(lines[..i]) + [] == ReadLines(lines[..i]);
    }
  }

  // ---- Parsing what was printed ----

  ghost predicate PlainPage(p: Page, cx: Codecs) {
    && PlainValue(p.id) && PlainValue(p.slug) && PlainValue(p.title)
    && PlainTags(p.tags) && PlainTags(p.sourceIds)
    && Faithful(cx.printNat, cx.parseNat, p.revision)
    && Faithful(cx.printTime, cx.parseTime, p.createdAt) && Faithful(cx.printTime, cx.parseTime, p.updatedAt)
  }

  lemma NumbersPlain(p: Page, cx: Codecs)
    requires PlainPage(p, cx)
    ensures PlainFields(NumberFields(p, cx))
  {
    KeysAreTold(Revision);
    KeysAreTold(Created);
    KeysAreTold(Updated);
  }

  lemma FieldsPlain(p: Page, cx: Codecs)
    requires PlainPage(p, cx)
    ensures PlainFields(PageFields(p, cx))
  {
    KeysAreTold(Id);
    KeysAreTold(Slug);
    KeysAreTold(Tags);
    KeysAreTold(SourceIds);
    NumbersPlain(p, cx);
    ArrayFieldPlain(Name(Tags), p.tags);
    ArrayFieldPlain(Name(SourceIds), p.sourceIds);
  }

  lemma SetNamed(p: Page, fields: seq<Field>, key: Key, value: string, cx: Codecs)
    ensures SetAll(p, fields + [Field(Name(key), value)], cx) == Assign(SetAll(p, fields, cx), key, value, cx)
  {
    KeysAreTold(key);
    SetAllPush(p, fields, Field(Name(key), value), cx);
  }

  lemma SetArray(p: Page, fields: seq<Field>, key: Key, items: seq<string>, cx: Codecs)
    requires PlainTags(items) && (key == Tags || key == SourceIds)
    ensures var q := SetAll(p, fields, cx);
            SetAll(p, fields + ArrayField(Name(key), items), cx) ==
            if items == [] then q else if key == Tags then q.(tags := items) else q.(sourceIds := items)
  {
    if items == [] {
      assert fields + [] == fields;
    } else {
      SetNamed(p, fields, key, PrintArray(items), cx);
      ArrayRoundTrip(items);
    }
  }

  lemma SetNames(p: Page, b: Page, cx: Codecs)
    requires b.tags == [] && b.sourceIds == [] && PlainTags(p.tags) && PlainTags(p.sourceIds)
    ensures SetAll(b, NameFields(p) + ArrayField(Name(Tags), p.tags) + ArrayField(Name(SourceIds), p.sourceIds), cx)
            == b.(id := p.id, slug := p.slug, tags := p.tags, sourceIds := p.sourceIds)
  {
    var fields := NameFields(p);
    SetNamed(b, [], Id, p.id, cx);
    SetNamed(b, [] + [Field(Name(Id), p.id)], Slug, p.slug, cx);
    assert fields == [] + [Field(Name(Id), p.id)] + [Field(Name(Slug), p.slug)];
    SetArray(b, fields, Tags, p.tags, cx);
    SetArray(b, fields + ArrayField(Name(Tags), p.tags), SourceIds, p.sourceIds, cx);
  }

  lemma SetNumbers(p: Page, b: Page, fields: seq<Field>, cx: Codecs)
    requires Faithful(cx.printNat, cx.parseNat, p.revision) && Faithful(cx.printTime, cx.parseTime, p.createdAt)
    requires Faithful(cx.printTime, cx.parseTime, p.updatedAt)
    ensures SetAll(b, fields + NumberFields(p, cx), cx)
            == SetAll(b, fields, cx).(revision := p.revision, createdAt := p.createdAt, updatedAt := p.updatedAt)
  {
    var r, c, u := NumberFields(p, cx)[0], NumberFields(p, cx)[1], NumberFields(p, cx)[2];
    SetNamed(b, fields, Revision, r.value, cx);
    SetNamed(b, fields + [r], Created, c.value, cx);
    SetNamed(b, fields + [r] + [c], Updated, u.value, cx);
    assert fields + NumberFields(p, cx) == fields + [r] + [c] + [u];
  }

  /** Setting the printed fields rebuilds the page. */
  lemma SetPrinted(p: Page, created: int, updated: int, cx: Codecs)
    requires PlainPage(p, cx)
    ensures SetAll(Blank(created, updated), PageFields(p, cx), cx).(title := p.title) == p
  {
    SetNames(p, Blank(created, updated), cx);
    SetNumbers(
      p, Blank(created, updated),
      NameFields(p) + ArrayField(Name(Tags), p.tags) + ArrayField(Name(SourceIds), p.sourceIds), cx);
  }

  /**
   Printer and parser undo each other, up to trimming the content, exactly unless title and
   content are both blank.
   */
  lemma PageRoundTrip(p: Page, content: string, created: int, updated: int, cx: Codecs)
    requires PlainPage(p, cx)
    ensures ParsePage(Serialize(p, content, cx), created, updated, cx) == Some((p, Trim(content)))
            <==> p.title != "" || Trim(content) != ""
  {
    FieldsPlain(p, cx);
    DocumentRoundTrip(PageFields(p, cx), p.title, content);
    SetPrinted(p, created, updated, cx);
  }

  // ---- How pages are written, and how any header is read ----

  lemma NumbersAreWritten(p: Page, cx: Codecs)
    ensures Header(NumberFields(p, cx)) ==
            Written("revision", cx.printNat(p.revision)) + Written("created", cx.printTime(p.createdAt))
            + Written("updated", cx.printTime(p.updatedAt))
  {
    var n := NumberFields(p, cx);
    assert n == [n[0], n[1]] + [n[2]];
    HeaderConcat([n[0], n[1]], [n[2]]);
    TwoLines(n[0], n[1]);
    WrittenLine(n[2]);
  }

  lemma HeaderIsWritten(p: Page, cx: Codecs)
    ensures Header(PageFields(p, cx)) ==
            Written("id", p.id) + Written("slug", p.slug)
            + ArrayLine("tags", p.tags) + ArrayLine("source_ids", p.sourceIds)
            + (Written("revision", cx.printNat(p.revision)) + Written("created", cx.printTime(p.createdAt))
               + Written("updated", cx.printTime(p.updatedAt)))
  {
    var n, t, i := NameFields(p), ArrayField(Name(Tags), p.tags), ArrayField(Name(SourceIds), p.sourceIds);
    HeaderConcat(n + t + i, NumberFields(p, cx));
    HeaderConcat(n + t, i);
    HeaderConcat(n, t);
    TwoLines(n[0], n[1]);
    ArrayLineIsHeader(Name(Tags), p.tags);
    ArrayLineIsHeader(Name(SourceIds), p.sourceIds);
    NumbersAreWritten(p, cx);
  }

  /** The layout of a page's file. */
  lemma PageIsWritten(p: Page, content: string, cx: Codecs)
    ensures Serialize(p, content, cx) ==
            "---\n" + (Written("id", p.id) + Written("slug", p.slug)
                       + ArrayLine("tags", p.tags) + ArrayLine("source_ids", p.sourceIds)
                       + (Written("revision", cx.printNat(p.revision)) + Written("created", cx.printTime(p.createdAt))
                          + Written("updated", cx.printTime(p.updatedAt))))
            + "---\n\n" + ("# " + p.title + ("\n\n" + Ended(content)))
  {
    HeaderIsWritten(p, cx);
  }

  /** Names and lists are what their last lines say. */
  predicate NamesRead(p: Page, b: Page, fields: seq<Field>) {
    var tags, sources := LastValue(fields, "tags"), LastValue(fields, "source_ids");
    && p.id == LastValue(fields, "id").UnwrapOr(b.id) && p.slug == LastValue(fields, "slug").UnwrapOr(b.slug)
    && p.tags == (if tags.Some? then ParseArray(tags.value) else b.tags)
    && p.sourceIds == (if sources.Some? then ParseArray(sources.value) else b.sourceIds)
  }

  /** A date is the last that can be read; an unreadable revision counts as 1. */
  predicate NumbersRead(p: Page, b: Page, fields: seq<Field>, cx: Codecs) {
    var revision := LastValue(fields, "revision");
    && p.revision == (if revision.Some? then cx.parseNat(revision.value).UnwrapOr(1) else b.revision)
    && p.createdAt == LastParsed(fields, "created", cx.parseTime).UnwrapOr(b.createdAt)
    && p.updatedAt == LastParsed(fields, "updated", cx.parseTime).UnwrapOr(b.updatedAt)
  }

  lemma NameSets(p: Page, f: Field, cx: Codecs)
    ensures var q := SetField(p, f, cx);
            && q.id == (if f.key == "id" then f.value else p.id)
            && q.slug == (if f.key == "slug" then f.value else p.slug)
            && q.tags == (if f.key == "tags" then ParseArray(f.value) else p.tags)
            && q.sourceIds == (if f.key == "source_ids" then ParseArray(f.value) else p.sourceIds)
  {
  }

  lemma NumberSets(p: Page, f: Field, cx: Codecs)
    ensures var q := SetField(p, f, cx);
            && q.revision == (if f.key == "revision" then cx.parseNat(f.value).UnwrapOr(1) else p.revision)
            && q.createdAt == (if f.key == "created" then cx.parseTime(f.value).UnwrapOr(p.createdAt) else p.createdAt)
            && q.updatedAt == (if f.key == "updated" then cx.parseTime(f.value).UnwrapOr(p.updatedAt) else p.updatedAt)
  {
  }

  lemma {:induction false} LastNames(b: Page, fields: seq<Field>, cx: Codecs)
    ensures NamesRead(SetAll(b, fields, cx), b, fields)
  {
    if fields != [] {
      LastNames(b, fields[..|fields| - 1], cx);
      NameSets(SetAll(b, fields[..|fields| - 1], cx), fields[|fields| - 1], cx);
    }
  }

  lemma {:induction false} LastNumbers(b: Page, fields: seq<Field>, cx: Codecs)
    ensures NumbersRead(SetAll(b, fields, cx), b, fields, cx)
  {
    if fields != [] {
      LastNumbers(b, fields[..|fields| - 1], cx);
      NumberSets(SetAll(b, fields[..|fields| - 1], cx), fields[|fields| - 1], cx);
    }
  }

  /** Any header, with lines missing, repeated, unknown or in another order, is read line by line over the defaults. */
  lemma AnyHeaderIsRead(fields: seq<Field>, title: string, content: string, created: int, updated: int, cx: Codecs)
    requires fields != [] && PlainFields(fields) && PlainValue(title) && (title != "" || Trim(content) != "")
    ensures var r := ParsePage(Document(fields, title, content), created, updated, cx);
            && r.Some? && r.value.1 == Trim(content) && r.value.0.title == title
            && NamesRead(r.value.0, Page("", "", "", [], [], created, updated, 1), fields)
            && NumbersRead(r.value.0, Page("", "", "", [], [], created, updated, 1), fields, cx)
  {
    DocumentRoundTrip(fields, title, content);
    LastNames(Blank(created, updated), fields, cx);
    LastNumbers(Blank(created, updated), fields, cx);
  }
}
