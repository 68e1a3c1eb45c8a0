/**
 Markdown documents with a `key: value` header: the layout both printers share, and the
 splitting, title and array helpers both parsers share.
 */
module Frontmatter {
  import opened Prelude
  import opened Text

  // ---- Arrays ----

  function TrimStartOf(s: string, c: char): string {
    if s != "" && s[0] == c then TrimStartOf(s[1..], c) else s
  }

  function TrimEndOf(s: string, c: char): string {
    if s != "" && s[|s| - 1] == c then TrimEndOf(s[..|s| - 1], c) else s
  }

  function TrimMatches(s: string, c: char): string {
    TrimEndOf(TrimStartOf(s, c), c)
  }

  function SplitOn(s: string, c: char): seq<string>
    decreases |s|
  {
    match Find(s, c)
    case None => [s]
    case Some(k) => [s[..k]] + SplitOn(s[k + 1..], c)
  }

  function Clean(item: string): string {
    TrimMatches(TrimMatches(Trim(item), '"'), '\'')
  }

  function CleanAll(items: seq<string>): seq<string> {
    if items == [] then []
    else (if Clean(items[0]) == "" then [] else [Clean(items[0])]) + CleanAll(items[1..])
  }

  function ParseArray(value: string): seq<string> {
    var s := Trim(value);
    if s == "" || s[0] != '[' || s[|s| - 1] != ']' then (if s == "" then [] else [s])
    else CleanAll(SplitOn(s[1..|s| - 1], ','))
  }

  function Quote(tag: string): string {
    "\"" + tag + "\""
  }

  function JoinQuoted(tags: seq<string>): string {
    if tags == [] then ""
    else if |tags| == 1 then Quote(tags[0])
    else Quote(tags[0]) + ", " + JoinQuoted(tags[1..])
  }

  function PrintArray(tags: seq<string>): string {
    "[" + JoinQuoted(tags) + "]"
  }

  predicate QuoteMark(c: char) { c == '"' || c == '\'' }

  /** A tag that survives the quoting: not empty, no comma, no quotation mark at either end. */
  predicate PlainTag(t: string) {
    t != "" && ',' !in t && !QuoteMark(t[0]) && !QuoteMark(t[|t| - 1])
  }

  lemma {:induction false} TrimStartOfCons(t: string, c: char)
    ensures TrimStartOf([c] + t, c) == TrimStartOf(t, c)
  {
    assert ([c] + t)[1..] == t;
  }

  lemma {:induction false} TrimEndOfSnoc(t: string, c: char)
    ensures TrimEndOf(t + [c], c) == TrimEndOf(t, c)
  {
    assert (t + [c])[..|t|] == t;
  }

  lemma {:induction false} TrimStartOfSnoc(t: string, c: char)
    ensures TrimEndOf(TrimStartOf(t + [c], c), c) == TrimMatches(t, c)
    decreases |t|
  {
    if t == "" {
      assert t + [c] == [c] && [c][1..] == "";
    } else if t[0] == c {
      assert (t + [c])[1..] == t[1..] + [c];
      TrimStartOfSnoc(t[1..], c);
    } else {
      TrimEndOfSnoc(t, c);
    }
  }

  /** Quoting adds nothing that trimming the marks does not take off again. */
  lemma TrimQuoted(tag: string)
    ensures TrimMatches(Quote(tag), '"') == TrimMatches(tag, '"')
  {
    assert Quote(tag) == ['"'] + (tag + ['"']);
    TrimStartOfCons(tag + ['"'], '"');
    TrimStartOfSnoc(tag, '"');
  }

  lemma {:induction false} TrimMatchesShrinks(s: string, c: char)
    ensures TrimStartOf(s, c) == s || |TrimStartOf(s, c)| < |s|
    ensures TrimEndOf(s, c) == s || |TrimEndOf(s, c)| < |s|
    ensures TrimStartOf(s, c) == s <==> s == "" || s[0] != c
    ensures TrimEndOf(s, c) == s <==> s == "" || s[|s| - 1] != c
  {
    if s != "" {
      TrimMatchesShrinks(s[1..], c);
      TrimMatchesShrinks(s[..|s| - 1], c);
    }
  }

  lemma TrimMatchesFixed(s: string, c: char)
    ensures TrimMatches(s, c) == s || |TrimMatches(s, c)| < |s|
    ensures TrimMatches(s, c) == s <==> s == "" || (s[0] != c && s[|s| - 1] != c)
  {
    TrimMatchesShrinks(s, c);
    TrimMatchesShrinks(TrimStartOf(s, c), c);
  }

  /** What comes back for a tag printed after optional blanks. */
  lemma CleanQuoted(blank: string, tag: string)
    requires AllBlank(blank)
    ensures Clean(blank + Quote(tag)) == TrimMatches(TrimMatches(tag, '"'), '\'')
    ensures Clean(blank + Quote(tag)) == tag <==> tag == "" || (!QuoteMark(tag[0]) && !QuoteMark(tag[|tag| - 1]))
  {
    TrimStartPrepend(blank, Quote(tag));
    TrimmedStays(Quote(tag));
    TrimQuoted(tag);
    TrimMatchesFixed(tag, '"');
    TrimMatchesFixed(TrimMatches(tag, '"'), '\'');
  }

  lemma CommaFreePiece(blank: string, tags: seq<string>)
    requires tags != [] && ',' !in blank && ',' !in tags[0]
    ensures var pieces := SplitOn(blank + JoinQuoted(tags), ',');
            if |tags| == 1 then pieces == [blank + Quote(tags[0])]
            else pieces == [blank + Quote(tags[0])] + SplitOn(" " + JoinQuoted(tags[1..]), ',')
  {
    var first := blank + Quote(tags[0]);
    CommaFreeQuote(blank, tags[0]);
    if |tags| > 1 {
      var rest := " " + JoinQuoted(tags[1..]);
      assert blank + JoinQuoted(tags) == first + "," + rest;
      SplitFirst(first, rest);
    }
  }

  lemma CommaFreeQuote(blank: string, tag: string)
    requires ',' !in blank && ',' !in tag
    ensures ',' !in blank + Quote(tag)
  {
  }

  lemma SplitFirst(first: string, rest: string)
    requires ',' !in first
    ensures SplitOn(first + "," + rest, ',') == [first] + SplitOn(rest, ',')
  {
    var s := first + "," + rest;
    assert s[|first|] == ',';
    FindIs(s, ',', |first|);
    assert s[..|first|] == first && s[|first| + 1..] == rest;
  }

  /** The tags without the marks at their ends, dropping those that become empty. */
  function Unmarked(tags: seq<string>): seq<string> {
    if tags == [] then []
    else
      var t := TrimMatches(TrimMatches(tags[0], '"'), '\'');
      (if t == "" then [] else [t]) + Unmarked(tags[1..])
  }

  ghost predicate CommaFree(tags: seq<string>) {
    forall k :: 0 <= k < |tags| ==> ',' !in tags[k]
  }

  lemma {:induction false} SplitJoined(blank: string, tags: seq<string>)
    requires tags != [] && AllBlank(blank) && CommaFree(tags)
    ensures CleanAll(SplitOn(blank + JoinQuoted(tags), ',')) == Unmarked(tags)
    decreases |tags|
  {
    assert !IsWhitespace(',');
    CommaFreePiece(blank, tags);
    CleanQuoted(blank, tags[0]);
    var first := blank + Quote(tags[0]);
    if |tags| == 1 {
      assert [first][1..] == [] && tags[1..] == [];
    } else {
      var rest := SplitOn(" " + JoinQuoted(tags[1..]), ',');
      assert ([first] + rest)[1..] == rest;
      SplitJoined(" ", tags[1..]);
    }
  }

  lemma {:induction false} UnmarkedIsSame(tags: seq<string>)
    requires CommaFree(tags)
    ensures |Unmarked(tags)| <= |tags|
    ensures Unmarked(tags) == tags <==> forall k :: 0 <= k < |tags| ==> PlainTag(tags[k])
  {
    if tags != [] {
      var rest := tags[1..];
      UnmarkedIsSame(rest);
      CleanQuoted("", tags[0]);
      assert "" + Quote(tags[0]) == Quote(tags[0]);
      assert forall k :: 0 < k < |tags| ==> tags[k] == rest[k - 1];
      var t := TrimMatches(TrimMatches(tags[0], '"'), '\'');
      if Unmarked(tags) == tags {
        assert t != "";
        assert Unmarked(tags)[1..] == Unmarked(rest);
      }
    }
  }

  lemma {:induction false} TrimsKeepOut(s: string, c: char, q: char)
    requires c !in s
    ensures c !in TrimStart(s) && c !in TrimEnd(s) && c !in TrimStartOf(s, q) && c !in TrimEndOf(s, q)
  {
    if s != "" {
      TrimsKeepOut(s[1..], c, q);
      TrimsKeepOut(s[..|s| - 1], c, q);
    }
  }

  lemma CleanKeepsOut(s: string, c: char)
    requires c !in s
    ensures c !in Clean(s)
  {
    TrimsKeepOut(s, c, '"');
    TrimsKeepOut(TrimStart(s), c, '"');
    var t := Trim(s);
    TrimsKeepOut(t, c, '"');
    TrimsKeepOut(TrimStartOf(t, '"'), c, '"');
    var u := TrimMatches(t, '"');
    TrimsKeepOut(u, c, '\'');
    TrimsKeepOut(TrimStartOf(u, '\''), c, '\'');
  }

  lemma {:induction false} PiecesAreCommaFree(s: string)
    ensures CommaFree(CleanAll(SplitOn(s, ',')))
    decreases |s|
  {
    match Find(s, ',')
    case None =>
      CleanKeepsOut(s, ',');
      assert [s][1..] == [];
    case Some(k) =>
      CleanKeepsOut(s[..k], ',');
      PiecesAreCommaFree(s[k + 1..]);
      assert ([s[..k]] + SplitOn(s[k + 1..], ','))[1..] == SplitOn(s[k + 1..], ',');
  }

  lemma ParsePrinted(tags: seq<string>)
    ensures ParseArray(PrintArray(tags)) == CleanAll(SplitOn(JoinQuoted(tags), ','))
  {
    var s := PrintArray(tags);
    TrimmedStays(s);
    assert s[1..|s| - 1] == JoinQuoted(tags);
  }

  /** A non-empty array comes back as printed exactly if every tag is plain. */
  lemma ArrayRoundTrip(tags: seq<string>)
    requires tags != []
    ensures ParseArray(PrintArray(tags)) == tags <==> forall k :: 0 <= k < |tags| ==> PlainTag(tags[k])
  {
    ParsePrinted(tags);
    PiecesAreCommaFree(JoinQuoted(tags));
    if CommaFree(tags) {
      assert "" + JoinQuoted(tags) == JoinQuoted(tags);
      SplitJoined("", tags);
      UnmarkedIsSame(tags);
    }
  }

  /** A value without brackets is one item, and a blank one none. */
  lemma UnbracketedIsOneItem(value: string)
    requires Trim(value) == "" || Trim(value)[0] != '[' || Trim(value)[|Trim(value)| - 1] != ']'
    ensures ParseArray(value) == if Trim(value) == "" then [] else [Trim(value)]
  {
  }

  /** How arrays are written. */
  lemma ArrayIsWritten(a: string, b: string)
    ensures PrintArray([]) == "[]" && PrintArray([a]) == "[" + ("\"" + a + "\"") + "]"
    ensures PrintArray([a, b]) == "[" + ("\"" + a + "\"" + ", " + ("\"" + b + "\"")) + "]"
  {
    assert JoinQuoted([b]) == Quote(b) && [a, b][1..] == [b];
    assert JoinQuoted([a, b]) == Quote(a) + ", " + Quote(b);
  }

  // ---- The document ----

  datatype Field = Field(key: string, value: string)

  function Entry(f: Field): string {
    f.key + ": " + f.value
  }

  function Header(fields: seq<Field>): string {
    if fields == [] then "" else Entry(fields[0]) + "\n" + Header(fields[1..])
  }

  lemma {:induction false} HeaderPush(fields: seq<Field>, f: Field)
    ensures Header(fields + [f]) == Header(fields) + (f.key + ": " + f.value + "\n")
  {
    if fields == [] {
      assert [f][1..] == [];
      assert [] + [f] == [f];
    } else {
      assert (fields + [f])[1..] == fields[1..] + [f];
      HeaderPush(fields[1..], f);
    }
  }

  /** With a line feed at the end. */
  function Ended(content: string): string {
    if content != "" && content[|content| - 1] == '\n' then content else content + "\n"
  }

  function Body(title: string, content: string): string {
    "# " + title + ("\n\n" + Ended(content))
  }

  function Document(fields: seq<Field>, title: string, content: string): string {
    "---\n" + Header(fields) + "---\n\n" + Body(title, content)
  }

  /** A list is printed only if there is something in it. */
  function ArrayField(key: string, items: seq<string>): seq<Field> {
    if items == [] then [] else [Field(key, PrintArray(items))]
  }

  method PushField(fm: string, ghost fields: seq<Field>, key: string, value: string) returns (r: string)
    requires fm == "---\n" + Header(fields)
    ensures r == "---\n" + Header(fields + [Field(key, value)])
  {
    HeaderPush(fields, Field(key, value));
    r := fm + (key + ": " + value + "\n");
  }

  method PushArray(fm: string, ghost fields: seq<Field>, key: string, items: seq<string>) returns (r: string)
    requires fm == "---\n" + Header(fields)
    ensures r == "---\n" + Header(fields + ArrayField(key, items))
  {
    if items == [] {
      assert fields + ArrayField(key, items) == fields;
      return fm;
    }
    r := PushField(fm, fields, key, PrintArray(items));
  }

  // ---- Splitting it ----

  predicate MatchAt(s: string, pat: string, k: nat) {
    k + |pat| <= |s| && s[k..k + |pat|] == pat
  }

  function FindTextFrom(s: string, pat: string, k: nat): (r: Option<nat>)
    ensures r.Some? ==> k <= r.value && MatchAt(s, pat, r.value) && forall j :: k <= j < r.value ==> !MatchAt(s, pat, j)
    ensures r.None? ==> forall j :: k <= j ==> !MatchAt(s, pat, j)
    decreases |s| - k
  {
    if k + |pat| > |s| then None
    else if MatchAt(s, pat, k) then Some(k)
    else FindTextFrom(s, pat, k + 1)
  }

  function DropNewlines(s: string): string {
    if s != "" && (s[0] == '\r' || s[0] == '\n') then DropNewlines(s[1..]) else s
  }

  function SplitFrontmatter(text: string): Option<(string, string)> {
    var t := TrimStart(text);
    if !MatchAt(t, "---", 0) then None
    else
      var after := DropNewlines(t[3..]);
      match FindTextFrom(after, "\n---", 0)
      case None => None
      case Some(end) => Some((after[..end], DropNewlines(after[end + 4..])))
  }

  /** The lines; a carriage return before a line feed goes when the line is trimmed. */
  function Lines(s: string): seq<string>
    decreases |s|
  {
    if s == "" then []
    else
      match Find(s, '\n')
      case None => [s]
      case Some(k) => [s[..k]] + Lines(s[k + 1..])
  }

  function ReadLine(line: string): Option<Field> {
    var l := Trim(line);
    match Find(l, ':')
    case None => None
    case Some(k) => Some(Field(Trim(l[..k]), Trim(l[k + 1..])))
  }

  function ReadLines(lines: seq<string>): seq<Field> {
    if lines == [] then []
    else
      var f := ReadLine(lines[|lines| - 1]);
      ReadLines(lines[..|lines| - 1]) + if f.Some? then [f.value] else []
  }

  function ExtractTitle(text: string): (string, string) {
    TitleOf(Trim(text))
  }

  function TitleOf(body: string): (string, string) {
    var rest := if MatchAt(body, "# ", 0) then body[2..] else body;
    match Find(rest, '\n')
    case Some(nl) => (Trim(rest[..nl]), Trim(rest[nl..]))
    case None => (Trim(rest), "")
  }

  // ---- Reading back what was printed ----

  predicate PlainKey(key: string) {
    key != "" && key[0] != '-' && forall i :: 0 <= i < |key| ==> key[i] != ':' && !IsWhitespace(key[i])
  }

  predicate PlainValue(value: string) {
    Trimmed(value) && '\n' !in value
  }

  /** A value printed on one line and parsed back. */
  ghost predicate Faithful<T(!new)>(show: T -> string, parse: string -> Option<T>, x: T) {
    PlainValue(show(x)) && parse(show(x)) == Some(x)
  }

  predicate PlainField(f: Field) {
    PlainKey(f.key) && PlainValue(f.value)
  }

  ghost predicate PlainFields(fields: seq<Field>) {
    forall k :: 0 <= k < |fields| ==> PlainField(fields[k])
  }

  ghost predicate PlainTags(tags: seq<string>) {
    forall k :: 0 <= k < |tags| ==> PlainTag(tags[k]) && '\n' !in tags[k]
  }

  lemma {:induction false} JoinIsOneLine(tags: seq<string>)
    requires forall k :: 0 <= k < |tags| ==> '\n' !in tags[k]
    ensures '\n' !in JoinQuoted(tags)
  {
    if |tags| > 1 { JoinIsOneLine(tags[1..]); }
  }

  lemma ArrayFieldPlain(key: string, items: seq<string>)
    requires PlainKey(key) && PlainTags(items)
    ensures PlainFields(ArrayField(key, items))
  {
    JoinIsOneLine(items);
  }

  /** The entry without the blank that an empty value leaves behind. */
  function Tight(f: Field): string {
    if f.value == "" then f.key + ":" else Entry(f)
  }

  lemma TrimEntry(f: Field)
    requires PlainField(f)
    ensures Trim(Entry(f)) == Tight(f)
  {
    var colon := f.key + ":";
    assert Entry(f)[0] == f.key[0];
    assert TrimStart(Entry(f)) == Entry(f);
    if f.value == "" {
      assert Entry(f) == colon + [' '];
      TrimEndSnoc(colon, ' ');
      TrimEndSnoc(f.key, ':');
      assert !IsWhitespace(':');
    } else {
      assert Entry(f)[|Entry(f)| - 1] == f.value[|f.value| - 1];
      assert TrimEnd(Entry(f)) == Entry(f);
    }
  }

  lemma ReadEntry(f: Field)
    requires PlainField(f)
    ensures ReadLine(Entry(f)) == Some(f)
  {
    TrimEntry(f);
    var l := Tight(f);
    assert l[|f.key|] == ':' && l[..|f.key|] == f.key;
    FindIs(l, ':', |f.key|);
    TrimmedStays(f.key);
    assert l[|f.key| + 1..] == if f.value == "" then "" else " " + f.value;
    ReadValue(l[|f.key| + 1..], f.value);
  }

  lemma ReadValue(text: string, value: string)
    requires Trimmed(value) && text == if value == "" then "" else " " + value
    ensures Trim(text) == value
  {
    TrimStartPrepend(" ", value);
    TrimmedStays(value);
  }

  /** The header without its last line feed, as the splitter cuts it. */
  function Yaml(fields: seq<Field>): string
    requires fields != []
  {
    if |fields| == 1 then Entry(fields[0]) else Entry(fields[0]) + "\n" + Yaml(fields[1..])
  }

  function Entries(fields: seq<Field>): seq<string> {
    seq(|fields|, i requires 0 <= i < |fields| => Entry(fields[i]))
  }

  lemma {:induction false} HeaderIsYaml(fields: seq<Field>)
    requires fields != []
    ensures Header(fields) == Yaml(fields) + "\n"
  {
    if |fields| > 1 {
      HeaderIsYaml(fields[1..]);
    } else {
      assert fields[1..] == [];
      assert Header(fields) == Entry(fields[0]) + "\n" + "";
    }
  }

  lemma OneLine(f: Field)
    requires PlainField(f)
    ensures '\n' !in Entry(f) && Entry(f) != ""
  {
    assert !IsWhitespace('\n') || forall i :: 0 <= i < |f.key| ==> f.key[i] != '\n';
  }

  lemma LinesFirst(first: string, rest: string)
    requires '\n' !in first
    ensures Lines(first + "\n" + rest) == [first] + Lines(rest)
  {
    var s := first + "\n" + rest;
    assert s[|first|] == '\n';
    FindIs(s, '\n', |first|);
    assert s[..|first|] == first && s[|first| + 1..] == rest;
  }

  lemma LinesOne(s: string)
    requires '\n' !in s && s != ""
    ensures Lines(s) == [s]
  {
  }

  lemma EntriesCons(fields: seq<Field>)
    requires fields != []
    ensures Entries(fields) == [Entry(fields[0])] + Entries(fields[1..])
  {
  }

  lemma {:induction false} LinesOfYaml(fields: seq<Field>)
    requires fields != [] && PlainFields(fields)
    ensures Lines(Yaml(fields)) == Entries(fields)
  {
    var first, rest := Entry(fields[0]), fields[1..];
    OneLine(fields[0]);
    EntriesCons(fields);
    if rest != [] {
      LinesFirst(first, Yaml(rest));
      LinesOfYaml(rest);
    } else {
      LinesOne(first);
      assert Entries(rest) == [];
    }
  }

  lemma EntriesSnoc(front: seq<Field>, last: Field)
    ensures Entries(front + [last]) == Entries(front) + [Entry(last)]
    ensures Entries(front + [last])[..|front|] == Entries(front)
  {
  }

  lemma {:induction false} ReadEntries(fields: seq<Field>)
    requires PlainFields(fields)
    ensures ReadLines(Entries(fields)) == fields
  {
    if fields != [] {
      var front, last := fields[..|fields| - 1], fields[|fields| - 1];
      EntriesSnoc(front, last);
      assert fields == front + [last];
      ReadEntries(front);
      ReadEntry(last);
    }
  }

  ghost predicate NoDashLine(s: string) {
    forall j, k :: 0 <= j && j + 1 == k < |s| && s[j] == '\n' ==> s[k] != '-'
  }

  lemma {:induction false} HeaderHasNoDashLine(fields: seq<Field>)
    requires PlainFields(fields)
    ensures NoDashLine(Header(fields))
    ensures (fields != [] ==> Header(fields) != "" && Header(fields)[0] == fields[0].key[0])
  {
    if fields != [] {
      HeaderHasNoDashLine(fields[1..]);
      OneLine(fields[0]);
      NoDashAppend(Entry(fields[0]), Header(fields[1..]));
    }
  }

  lemma NoDashAppend(line: string, rest: string)
    requires '\n' !in line && NoDashLine(rest) && (rest != "" ==> rest[0] != '-')
    ensures NoDashLine(line + "\n" + rest)
  {
    var s := line + "\n" + rest;
    forall j, k | 0 <= j && j + 1 == k < |s| && s[j] == '\n' ensures s[k] != '-' {
      assert j >= |line|;
      if j > |line| { assert s[j] == rest[j - |line| - 1] && s[k] == rest[k - |line| - 1]; }
    }
  }

  /** The first `\n---` is the one that ends the header. */
  lemma HeaderEnds(header: string, yaml: string, rest: string)
    requires NoDashLine(header) && header == yaml + "\n"
    ensures FindTextFrom(header + "---" + rest, "\n---", 0) == Some(|yaml|)
  {
    var s := header + "---" + rest;
    assert s[|yaml|..|yaml| + 4] == "\n---";
    assert MatchAt(s, "\n---", |yaml|);
    forall j: nat | j < |yaml| ensures !MatchAt(s, "\n---", j) {
      DashLineAt(s, j);
      assert s[j] == header[j] && s[j + 1] == header[j + 1];
    }
  }

  lemma DashLineAt(s: string, j: nat)
    ensures MatchAt(s, "\n---", j) ==> s[j] == '\n' && s[j + 1] == '-'
  {
    if MatchAt(s, "\n---", j) {
      assert s[j] == s[j..j + 4][0] && s[j + 1] == s[j..j + 4][1];
    }
  }

  lemma SplitAfterDashes(header: string, yaml: string, body: string)
    requires NoDashLine(header) && header == yaml + "\n" && !IsWhitespace(header[0]) && body != "" && body[0] == '#'
    ensures SplitFrontmatter("---\n" + header + "---\n\n" + body) == Some((yaml, body))
  {
    var doc := "---\n" + header + "---\n\n" + body;
    var after := header + "---" + ("\n\n" + body);
    assert doc[3..] == "\n" + after;
    assert doc[..3] == "---";
    DropOne(after);
    HeaderEnds(header, yaml, "\n\n" + body);
    DropTwo(body);
    assert after[..|yaml|] == yaml;
    assert after[|yaml| + 4..] == "\n\n" + body;
  }

  lemma SplitDocument(fields: seq<Field>, title: string, content: string)
    requires fields != [] && PlainFields(fields)
    ensures SplitFrontmatter(Document(fields, title, content)) == Some((Yaml(fields), Body(title, content)))
  {
    HeaderIsYaml(fields);
    HeaderHasNoDashLine(fields);
    SplitAfterDashes(Header(fields), Yaml(fields), Body(title, content));
  }

  lemma DropTwo(body: string)
    requires body != "" && body[0] == '#'
    ensures DropNewlines("\n\n" + body) == body
  {
    assert "\n\n" + body == "\n" + ("\n" + body);
    DropOne("\n" + body);
    DropOne(body);
  }

  lemma DropOne(s: string)
    ensures DropNewlines("\n" + s) == DropNewlines(s)
  {
    assert ("\n" + s)[1..] == s;
  }

  /** Title and content come back, the content trimmed, exactly unless both are blank. */
  lemma TitleRoundTrip(title: string, content: string)
    requires PlainValue(title)
    ensures ExtractTitle(Body(title, content)) == (title, Trim(content)) <==> title != "" || Trim(content) != ""
  {
    TrimBody(title, content);
    TrimCommutes(content);
    if TrimEnd(content) != "" {
      TitleAndContent(title, TrimEnd(content));
      TrimAfterBlank("\n\n", content);
      TrimOfNonBlank(content);
    } else if title != "" {
      OnlyTitle(title);
    } else {
      HashIsTitle();
    }
  }

  lemma HashIsTitle()
    ensures TitleOf("#") == ("#", "")
  {
    TrimmedStays("#");
  }

  lemma TrimOfNonBlank(s: string)
    requires TrimEnd(s) != ""
    ensures Trim(s) != ""
  {
    TrimCommutes(s);
    TrimEndEnds(s);
    TrimStartKeeps(TrimEnd(s));
  }

  lemma {:induction false} TrimStartKeeps(s: string)
    requires s != "" && !IsWhitespace(s[|s| - 1])
    ensures TrimStart(s) != ""
  {
    if IsWhitespace(s[0]) { TrimStartKeeps(s[1..]); }
  }

  lemma TrimTail(content: string)
    ensures TrimEnd(content + "\n") == TrimEnd(content)
  {
    TrimEndSnoc(content, '\n');
  }

  lemma TrimGap(x: string)
    ensures TrimEnd("\n\n" + x) == if TrimEnd(x) == "" then "" else "\n\n" + TrimEnd(x)
  {
    TrimEndAppend("\n\n", x);
    TrimTail("\n");
    TrimTail("");
    assert "" + "\n" == "\n" && "\n" + "\n" == "\n\n";
  }

  lemma TrimHead(title: string)
    requires Trimmed(title)
    ensures TrimEnd("# " + title) == if title == "" then "#" else "# " + title
  {
    TrimEndAppend("# ", title);
    TrimmedStays(title);
    assert "# "[..1] == "#";
  }

  lemma TrimBody(title: string, content: string)
    requires PlainValue(title)
    ensures Trim(Body(title, content)) ==
            if TrimEnd(content) != "" then "# " + title + ("\n\n" + TrimEnd(content))
            else if title != "" then "# " + title
            else "#"
  {
    var tail := Ended(content);
    TrimTail(content);
    TrimGap(tail);
    TrimEndAppend("# " + title, "\n\n" + tail);
    TrimHead(title);
    BodyStarts(title, content);
  }

  lemma BodyStarts(title: string, content: string)
    ensures TrimStart(Body(title, content)) == Body(title, content)
  {
    assert Body(title, content)[0] == '#';
  }

  lemma TitleAndContent(title: string, text: string)
    requires PlainValue(title)
    ensures TitleOf("# " + title + ("\n\n" + text)) == (title, Trim("\n\n" + text))
  {
    var body := "# " + title + ("\n\n" + text);
    var rest := body[2..];
    assert body[..2] == "# ";
    assert rest == title + ("\n\n" + text);
    assert rest[|title|] == '\n';
    FindIs(rest, '\n', |title|);
    assert rest[..|title|] == title && rest[|title|..] == "\n\n" + text;
    TrimmedStays(title);
  }

  lemma OnlyTitle(title: string)
    requires PlainValue(title) && title != ""
    ensures TitleOf("# " + title) == (title, "")
  {
    assert ("# " + title)[..2] == "# " && ("# " + title)[2..] == title;
    TrimmedStays(title);
  }

  // ---- The two together ----

  datatype Reading = Reading(fields: seq<Field>, title: string, content: string)

  function ReadDocument(text: string): Option<Reading> {
    match SplitFrontmatter(text)
    case None => None
    case Some((yaml, body)) =>
      var (title, content) := ExtractTitle(body);
      Some(Reading(ReadLines(Lines(yaml)), title, content))
  }

  /** Every header line, the title and the trimmed content are read back, unless title and content are both blank. */
  lemma DocumentRoundTrip(fields: seq<Field>, title: string, content: string)
    requires fields != [] && PlainFields(fields) && PlainValue(title)
    ensures var r := ReadDocument(Document(fields, title, content));
            && r.Some? && r.value.fields == fields
            && (r.value == Reading(fields, title, Trim(content)) <==> title != "" || Trim(content) != "")
  {
    SplitDocument(fields, title, content);
    LinesOfYaml(fields);
    ReadEntries(fields);
    TitleRoundTrip(title, content);
  }

  // ---- Documents that were not printed ----

  /** Text that does not begin with three dashes is no document. */
  lemma NoHeaderNoDocument(text: string)
    requires |TrimStart(text)| < 3 || TrimStart(text)[..3] != "---"
    ensures ReadDocument(text) == None
  {
  }

  /** Without a hash the first line is the title all the same. */
  lemma FirstLineIsTitle(title: string, content: string)
    requires PlainValue(title) && title != "" && !("# " <= title) && Trim(content) != ""
    ensures ExtractTitle(title + "\n" + content) == (title, Trim(content))
    ensures ExtractTitle(title) == (title, "")
  {
    var tail := TrimEnd(content);
    TrimCommutes(content);
    TrimEndAppend(title + "\n", content);
    var body := title + "\n" + tail;
    assert body[0] == title[0] && TrimStart(title + "\n" + content) == title + "\n" + content;
    assert body[|title|] == '\n';
    FindIs(body, '\n', |title|);
    assert body[..|title|] == title && body[|title|..] == "\n" + tail;
    TrimmedStays(title);
    TrimAfterBlank("\n", content);
    HashesDiffer(title, "\n" + tail);
  }

  lemma HashesDiffer(title: string, rest: string)
    requires '\n' !in title && !("# " <= title) && rest != "" && rest[0] == '\n'
    ensures !MatchAt(title + rest, "# ", 0) && !MatchAt(title, "# ", 0)
  {
    if |title| >= 2 {
      assert (title + rest)[0..2] == title[..2];
    } else if |title| == 1 {
      assert (title + rest)[0..2][1] == '\n';
    } else {
      assert |rest| >= 2 ==> (title + rest)[0..2][0] == '\n';
    }
  }

  /** The value of the last header line with the key. */
  function LastValue(fields: seq<Field>, key: string): Option<string> {
    if fields == [] then None
    else if fields[|fields| - 1].key == key then Some(fields[|fields| - 1].value)
    else LastValue(fields[..|fields| - 1], key)
  }

  /** The last value with the key that can be parsed. */
  function LastParsed<T>(fields: seq<Field>, key: string, parse: string -> Option<T>): Option<T> {
    if fields == [] then None
    else
      var f := fields[|fields| - 1];
      if f.key == key && parse(f.value).Some? then parse(f.value) else LastParsed(fields[..|fields| - 1], key, parse)
  }

  // ---- How a header is written ----

  function ArrayLine(key: string, items: seq<string>): string {
    if items == [] then "" else key + ": " + PrintArray(items) + "\n"
  }

  lemma {:induction false} HeaderConcat(a: seq<Field>, b: seq<Field>)
    ensures Header(a + b) == Header(a) + Header(b)
    decreases |a|
  {
    if a == [] {
      assert a + b == b;
    } else {
      assert (a + b)[1..] == a[1..] + b;
      HeaderConcat(a[1..], b);
    }
  }

  function Written(key: string, value: string): string {
    key + ": " + value + "\n"
  }

  lemma WrittenLine(f: Field)
    ensures Header([f]) == Written(f.key, f.value)
  {
    assert [f][1..] == [] && Written(f.key, f.value) + "" == Written(f.key, f.value);
  }

  lemma ArrayLineIsHeader(key: string, items: seq<string>)
    ensures Header(ArrayField(key, items)) == ArrayLine(key, items)
  {
    if items != [] { WrittenLine(Field(key, PrintArray(items))); }
  }

  lemma TwoLines(f: Field, g: Field)
    ensures Header([f, g]) == Written(f.key, f.value) + Written(g.key, g.value)
  {
    assert [f, g] == [f] + [g];
    HeaderConcat([f], [g]);
    WrittenLine(f);
    WrittenLine(g);
  }
}
