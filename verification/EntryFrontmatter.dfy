/** Memory entries as markdown files. */
module EntryFrontmatter {
  import opened Prelude
  import opened Text
  import opened Frontmatter

  datatype MemoryType = Preference | Fact | Procedure | Context

  datatype Importance = Core | Important | Normal | Ephemeral

  datatype MemoryEntry = MemoryEntry(
    id: string, title: string, source: string, memoryType: MemoryType, tags: seq<string>,
    createdAt: int, updatedAt: int, lastUsedAt: int, confidence: real, importance: Importance,
    embeddingModel: string, indexedAt: Option<int>, mergedInto: Option<string>)

  datatype Codecs = Codecs(
    printTime: int -> string, parseTime: string -> Option<int>,
    printReal: real -> string, parseReal: string -> Option<real>)

  function TypeName(t: MemoryType): string {
    match t
    case Preference => "preference"
    case Fact => "fact"
    case Procedure => "procedure"
    case Context => "context"
  }

  function ParseType(s: string): Option<MemoryType> {
    if s == "preference" then Some(Preference)
    else if s == "fact" then Some(Fact)
    else if s == "procedure" then Some(Procedure)
    else if s == "context" then Some(Context)
    else None
  }

  function ImportanceName(i: Importance): string {
    match i
    case Core => "core"
    case Important => "important"
    case Normal => "normal"
    case Ephemeral => "ephemeral"
  }

  function ParseImportance(s: string): Option<Importance> {
    if s == "core" then Some(Core)
    else if s == "important" then Some(Important)
    else if s == "normal" then Some(Normal)
    else if s == "ephemeral" then Some(Ephemeral)
    else None
  }

  lemma TypesAreTold(t: MemoryType)
    ensures ParseType(TypeName(t)) == Some(t) && PlainValue(TypeName(t))
  {
  }

  lemma ImportancesAreTold(i: Importance)
    ensures ParseImportance(ImportanceName(i)) == Some(i) && PlainValue(ImportanceName(i))
  {
    assert "important"[0] != "ephemeral"[0];
  }

  datatype Key = Id | Type | Tags | ImportanceKey | Confidence | Source | Created | Updated

  function Name(key: Key): string {
    match key
    case Id => "id"
    case Type => "type"
    case Tags => "tags"
    case ImportanceKey => "importance"
    case Confidence => "confidence"
    case Source => "source"
    case Created => "created"
    case Updated => "updated"
  }

  function KeyOf(s: string): Option<Key> {
    if s == "id" then Some(Id)
    else if s == "type" then Some(Type)
    else if s == "tags" then Some(Tags)
    else if s == "importance" then Some(ImportanceKey)
    else if s == "confidence" then Some(Confidence)
    else if s == "source" then Some(Source)
    else if s == "created" then Some(Created)
    else if s == "updated" then Some(Updated)
    else None
  }

  lemma KeysAreTold(key: Key)
    ensures KeyOf(Name(key)) == Some(key)
  {
    assert "tags"[1] != "type"[1] && "updated"[0] != "created"[0] && "confidence"[0] != "importance"[0];
  }

  lemma KeysArePlain(key: Key)
    ensures PlainKey(Name(key))
  {
  }

  // ---- Printing ----

  function SourceField(source: string): seq<Field> {
    if source == "" then [] else [Field(Name(Source), source)]
  }

  function NameFields(e: MemoryEntry): seq<Field> {
    [Field(Name(Id), e.id), Field(Name(Type), TypeName(e.memoryType))] + ArrayField(Name(Tags), e.tags)
  }

  function RatingFields(e: MemoryEntry, cx: Codecs): seq<Field> {
    [Field(Name(ImportanceKey), ImportanceName(e.importance)), Field(Name(Confidence), cx.printReal(e.confidence))]
  }

  function DateFields(e: MemoryEntry, cx: Codecs): seq<Field> {
    [Field(Name(Created), cx.printTime(e.createdAt)), Field(Name(Updated), cx.printTime(e.updatedAt))]
  }

  function EntryFields(e: MemoryEntry, cx: Codecs): seq<Field> {
    NameFields(e) + RatingFields(e, cx) + SourceField(e.source) + DateFields(e, cx)
  }

  function Serialize(e: MemoryEntry, content: string, cx: Codecs): string {
    Document(EntryFields(e, cx), e.title, content)
  }

  // ---- Parsing ----

  function Assign(e: MemoryEntry, key: Key, value: string, cx: Codecs): MemoryEntry {
    match key
    case Id => e.(id := value)
    case Type => e.(memoryType := ParseType(value).UnwrapOr(Fact))
    case Tags => e.(tags := ParseArray(value))
    case ImportanceKey => e.(importance := ParseImportance(value).UnwrapOr(Normal))
    case Confidence => e.(confidence := cx.parseReal(value).UnwrapOr(0.8))
    case Source => e.(source := value)
    case Created => e.(createdAt := cx.parseTime(value).UnwrapOr(e.createdAt))
    case Updated => e.(updatedAt := cx.parseTime(value).UnwrapOr(e.updatedAt))
  }

  function SetField(e: MemoryEntry, f: Field, cx: Codecs): MemoryEntry {
    var key := KeyOf(f.key);
    if key.Some? then Assign(e, key.value, f.value, cx) else e
  }

  function SetAll(e: MemoryEntry, fields: seq<Field>, cx: Codecs): MemoryEntry {
    if fields == [] then e else SetField(SetAll(e, fields[..|fields| - 1], cx), fields[|fields| - 1], cx)
  }

  function Blank(created: int, updated: int): MemoryEntry {
    MemoryEntry("", "", "", Fact, [], created, updated, updated, 0.8, Normal, "", None, None)
  }

  /** `created` and `updated` are the clock readings used as defaults. */
  function ParseEntry(text: string, created: int, updated: int, cx: Codecs): Option<(MemoryEntry, string)> {
    match ReadDocument(text)
    case None => None
    case Some(r) =>
      var e := SetAll(Blank(created, updated), r.fields, cx);
      Some((e.(title := r.title, lastUsedAt := e.updatedAt), r.content))
  }

  method Parse(text: string, created: int, updated: int, cx: Codecs) returns (r: Option<(MemoryEntry, string)>)
    ensures r == ParseEntry(text, created, updated, cx)
  {
    var split := SplitFrontmatter(text);
    if split.None? {
      return None;
    }
    var (yaml, body) := split.value;
    var lines := Lines(yaml);
    var e := Blank(created, updated);
    for i := 0 to |lines|
      invariant e == SetAll(Blank(created, updated), ReadLines(lines[..i]), cx)
    {
      LineStep(Blank(created, updated), lines, i, cx);
      var f := ReadLine(lines[i]);
      if f.Some? {
        e := SetField(e, f.value, cx);
      }
    }
    assert lines[..|lines|] == lines;
    var (title, content) := ExtractTitle(body);
    return Some((e.(title := title, lastUsedAt := e.updatedAt), content));
  }

  lemma SetAllPush(e: MemoryEntry, fields: seq<Field>, f: Field, cx: Codecs)
    ensures SetAll(e, fields + [f], cx) == SetField(SetAll(e, fields, cx), f, cx)
  {
    assert (fields + [f])[..|fields|] == fields;
  }

  lemma LineStep(e: MemoryEntry, lines: seq<string>, i: nat, cx: Codecs)
    requires i < |lines|
    ensures var before, f := SetAll(e, ReadLines(lines[..i]), cx), ReadLine(lines[i]);
            SetAll(e, ReadLines(lines[..i + 1]), cx) == if f.Some? then SetField(before, f.value, cx) else before
  {
    assert lines[..i + 1][..i] == lines[..i];
    var f := ReadLine(lines[i]);
    if f.Some? {
      SetAllPush(e, ReadLines(lines[..i]), f.value, cx);
    } else {
      assert ReadLines(lines[..i]) + [] == ReadLines(lines[..i]);
    }
  }

  // ---- Parsing what was printed ----

  ghost predicate PlainEntry(e: MemoryEntry, cx: Codecs) {
    && PlainValue(e.id) && PlainValue(e.source) && PlainValue(e.title) && PlainTags(e.tags)
    && Faithful(cx.printReal, cx.parseReal, e.confidence)
    && Faithful(cx.printTime, cx.parseTime, e.createdAt) && Faithful(cx.printTime, cx.parseTime, e.updatedAt)
  }

  lemma NameFieldsPlain(e: MemoryEntry)
    requires PlainValue(e.id) && PlainTags(e.tags)
    ensures PlainFields(NameFields(e))
  {
    KeysArePlain(Id);
    KeysArePlain(Type);
    KeysArePlain(Tags);
    TypesAreTold(e.memoryType);
    ArrayFieldPlain(Name(Tags), e.tags);
  }

  lemma OtherFieldsPlain(e: MemoryEntry, cx: Codecs)
    requires PlainEntry(e, cx)
    ensures PlainFields(RatingFields(e, cx)) && PlainFields(SourceField(e.source)) && PlainFields(DateFields(e, cx))
  {
    KeysArePlain(ImportanceKey);
    KeysArePlain(Confidence);
    KeysArePlain(Source);
    KeysArePlain(Created);
    KeysArePlain(Updated);
    ImportancesAreTold(e.importance);
  }

  lemma SetNamed(b: MemoryEntry, fields: seq<Field>, key: Key, value: string, cx: Codecs)
    ensures SetAll(b, fields + [Field(Name(key), value)], cx) == Assign(SetAll(b, fields, cx), key, value, cx)
  {
    KeysAreTold(key);
    SetAllPush(b, fields, Field(Name(key), value), cx);
  }

  lemma SetTwo(b: MemoryEntry, fields: seq<Field>, k: Key, v: string, k': Key, v': string, cx: Codecs)
    ensures SetAll(b, fields + [Field(Name(k), v), Field(Name(k'), v')], cx)
            == Assign(Assign(SetAll(b, fields, cx), k, v, cx), k', v', cx)
  {
    KeysAreTold(k);
    KeysAreTold(k');
    SetTwoFields(b, fields, Field(Name(k), v), Field(Name(k'), v'), cx);
  }

  lemma SetTwoFields(b: MemoryEntry, fields: seq<Field>, f: Field, g: Field, cx: Codecs)
    ensures SetAll(b, fields + [f, g], cx) == SetField(SetField(SetAll(b, fields, cx), f, cx), g, cx)
  {
    assert fields + [f, g] == fields + [f] + [g];
    SetAllPush(b, fields, f, cx);
    SetAllPush(b, fields + [f], g, cx);
  }

  lemma SetNames(e: MemoryEntry, b: MemoryEntry, cx: Codecs)
    requires b.tags == [] && PlainTags(e.tags)
    ensures SetAll(b, NameFields(e), cx) == b.(id := e.id, memoryType := e.memoryType, tags := e.tags)
  {
    SetTwo(b, [], Id, e.id, Type, TypeName(e.memoryType), cx);
    var two := [Field(Name(Id), e.id), Field(Name(Type), TypeName(e.memoryType))];
    assert [] + two == two;
    TypesAreTold(e.memoryType);
    if e.tags == [] {
      assert NameFields(e) == two;
    } else {
      SetNamed(b, two, Tags, PrintArray(e.tags), cx);
      ArrayRoundTrip(e.tags);
    }
  }

  lemma SetRatings(e: MemoryEntry, b: MemoryEntry, fields: seq<Field>, cx: Codecs)
    requires Faithful(cx.printReal, cx.parseReal, e.confidence)
    ensures SetAll(b, fields + RatingFields(e, cx), cx)
            == SetAll(b, fields, cx).(importance := e.importance, confidence := e.confidence)
  {
    SetTwo(b, fields, ImportanceKey, ImportanceName(e.importance), Confidence, cx.printReal(e.confidence), cx);
    ImportancesAreTold(e.importance);
  }

  lemma SetSource(e: MemoryEntry, b: MemoryEntry, fields: seq<Field>, cx: Codecs)
    requires SetAll(b, fields, cx).source == ""
    ensures SetAll(b, fields + SourceField(e.source), cx) == SetAll(b, fields, cx).(source := e.source)
  {
    if e.source == "" {
      assert fields + SourceField(e.source) == fields;
    } else {
      SetNamed(b, fields, Source, e.source, cx);
    }
  }

  lemma SetDates(e: MemoryEntry, b: MemoryEntry, fields: seq<Field>, cx: Codecs)
    requires Faithful(cx.printTime, cx.parseTime, e.createdAt) && Faithful(cx.printTime, cx.parseTime, e.updatedAt)
    ensures SetAll(b, fields + DateFields(e, cx), cx)
            == SetAll(b, fields, cx).(createdAt := e.createdAt, updatedAt := e.updatedAt)
  {
    SetTwo(b, fields, Created, cx.printTime(e.createdAt), Updated, cx.printTime(e.updatedAt), cx);
  }

  /** What a file keeps of an entry: use, indexing and merge data are reset. */
  function Persisted(e: MemoryEntry): MemoryEntry {
    e.(lastUsedAt := e.updatedAt, embeddingModel := "", indexedAt := None, mergedInto := None)
  }

  lemma SetPrinted(e: MemoryEntry, created: int, updated: int, cx: Codecs)
    requires PlainEntry(e, cx)
    ensures SetAll(Blank(created, updated), EntryFields(e, cx), cx).(title := e.title, lastUsedAt := e.updatedAt)
            == Persisted(e)
    ensures SetAll(Blank(created, updated), EntryFields(e, cx), cx).updatedAt == e.updatedAt
  {
    var b := Blank(created, updated);
    SetNames(e, b, cx);
    SetRatings(e, b, NameFields(e), cx);
    SetSource(e, b, NameFields(e) + RatingFields(e, cx), cx);
    SetDates(e, b, NameFields(e) + RatingFields(e, cx) + SourceField(e.source), cx);
  }

  /**
   Printer and parser undo each other, up to trimming the content and what files do not hold,
   exactly unless title and content are both blank.
   */
  lemma EntryRoundTrip(e: MemoryEntry, content: string, created: int, updated: int, cx: Codecs)
    requires PlainEntry(e, cx)
    ensures ParseEntry(Serialize(e, content, cx), created, updated, cx) == Some((Persisted(e), Trim(content)))
            <==> e.title != "" || Trim(content) != ""
  {
    NameFieldsPlain(e);
    OtherFieldsPlain(e, cx);
    DocumentRoundTrip(EntryFields(e, cx), e.title, content);
    SetPrinted(e, created, updated, cx);
  }

  // ---- How entries are written, and how any header is read ----

  /** The layout of an entry's file: the source only if there is one. */
  lemma EntryIsWritten(e: MemoryEntry, content: string, cx: Codecs)
    ensures Serialize(e, content, cx) ==
            "---\n" + (Written("id", e.id) + Written("type", TypeName(e.memoryType)) + ArrayLine("tags", e.tags)
                       + (Written("importance", ImportanceName(e.importance))
                          + Written("confidence", cx.printReal(e.confidence)))
                       + (if e.source == "" then "" else Written("source", e.source))
                       + (Written("created", cx.printTime(e.createdAt))
                          + Written("updated", cx.printTime(e.updatedAt))))
            + "---\n\n" + ("# " + e.title + ("\n\n" + Ended(content)))
  {
    NamesAreWritten(e);
    var n, r, s, d := NameFields(e), RatingFields(e, cx), SourceField(e.source), DateFields(e, cx);
    HeaderConcat(n + r + s, d);
    HeaderConcat(n + r, s);
    HeaderConcat(n, r);
    TwoLines(r[0], r[1]);
    TwoLines(d[0], d[1]);
    if e.source != "" { WrittenLine(s[0]); }
  }

  lemma NamesAreWritten(e: MemoryEntry)
    ensures Header(NameFields(e))
            == Written("id", e.id) + Written("type", TypeName(e.memoryType)) + ArrayLine("tags", e.tags)
  {
    var ids := [Field(Name(Id), e.id), Field(Name(Type), TypeName(e.memoryType))];
    HeaderConcat(ids, ArrayField(Name(Tags), e.tags));
    ArrayLineIsHeader(Name(Tags), e.tags);
    TwoLines(ids[0], ids[1]);
  }

  predicate NamesRead(e: MemoryEntry, b: MemoryEntry, fields: seq<Field>) {
    var tags, kind := LastValue(fields, "tags"), LastValue(fields, "type");
    && e.id == LastValue(fields, "id").UnwrapOr(b.id) && e.source == LastValue(fields, "source").UnwrapOr(b.source)
    && e.tags == (if tags.Some? then ParseArray(tags.value) else b.tags)
    && e.memoryType == (if kind.Some? then ParseType(kind.value).UnwrapOr(Fact) else b.memoryType)
  }

  predicate RatingsRead(e: MemoryEntry, b: MemoryEntry, fields: seq<Field>, cx: Codecs) {
    var importance, confidence := LastValue(fields, "importance"), LastValue(fields, "confidence");
    && e.importance == (if importance.Some? then ParseImportance(importance.value).UnwrapOr(Normal) else b.importance)
    && e.confidence == (if confidence.Some? then cx.parseReal(confidence.value).UnwrapOr(0.8) else b.confidence)
    && e.createdAt == LastParsed(fields, "created", cx.parseTime).UnwrapOr(b.createdAt)
    && e.updatedAt == LastParsed(fields, "updated", cx.parseTime).UnwrapOr(b.updatedAt)
  }

  lemma NameSets(e: MemoryEntry, f: Field, cx: Codecs)
    ensures var q := SetField(e, f, cx);
            && q.id == (if f.key == "id" then f.value else e.id)
            && q.source == (if f.key == "source" then f.value else e.source)
            && q.tags == (if f.key == "tags" then ParseArray(f.value) else e.tags)
            && q.memoryType == (if f.key == "type" then ParseType(f.value).UnwrapOr(Fact) else e.memoryType)
  {
  }

  lemma RatingSets(e: MemoryEntry, f: Field, cx: Codecs)
    ensures var q := SetField(e, f, cx);
            && q.importance
               == (if f.key == "importance" then ParseImportance(f.value).UnwrapOr(Normal) else e.importance)
            && q.confidence == (if f.key == "confidence" then cx.parseReal(f.value).UnwrapOr(0.8) else e.confidence)
            && q.createdAt == (if f.key == "created" then cx.parseTime(f.value).UnwrapOr(e.createdAt) else e.createdAt)
            && q.updatedAt == (if f.key == "updated" then cx.parseTime(f.value).UnwrapOr(e.updatedAt) else e.updatedAt)
  {
  }

  lemma {:induction false} LastNames(b: MemoryEntry, fields: seq<Field>, cx: Codecs)
    ensures NamesRead(SetAll(b, fields, cx), b, fields)
  {
    if fields != [] {
      LastNames(b, fields[..|fields| - 1], cx);
      NameSets(SetAll(b, fields[..|fields| - 1], cx), fields[|fields| - 1], cx);
    }
  }

  lemma {:induction false} LastRatings(b: MemoryEntry, fields: seq<Field>, cx: Codecs)
    ensures RatingsRead(SetAll(b, fields, cx), b, fields, cx)
  {
    if fields != [] {
      LastRatings(b, fields[..|fields| - 1], cx);
      RatingSets(SetAll(b, fields[..|fields| - 1], cx), fields[|fields| - 1], cx);
    }
  }

  /** Any header, with lines missing, repeated, unknown or in another order, is read line by line over the defaults. */
  lemma AnyHeaderIsRead(fields: seq<Field>, title: string, content: string, created: int, updated: int, cx: Codecs)
    requires fields != [] && PlainFields(fields) && PlainValue(title) && (title != "" || Trim(content) != "")
    ensures var r := ParseEntry(Document(fields, title, content), created, updated, cx);
            var b := MemoryEntry("", "", "", Fact, [], created, updated, updated, 0.8, Normal, "", None, None);
            && r.Some? && r.value.1 == Trim(content) && r.value.0.title == title
            && NamesRead(r.value.0, b, fields) && RatingsRead(r.value.0, b, fields, cx)
            && r.value.0.lastUsedAt == r.value.0.updatedAt
  {
    DocumentRoundTrip(fields, title, content);
    LastNames(Blank(created, updated), fields, cx);
    LastRatings(Blank(created, updated), fields, cx);
  }
}
