/**
 Stripping comments and trailing commas from JSON with comments, against a forward lexer.
 */
module Jsonc {
  import opened Text

  // ---- The forward lexer ----

  /**
   What the character about to be read belongs to.  `escaped`: the run of backslashes right
   before it is odd.  `BlockOpen` is the star that opens a block comment, `BlockClose` the slash
   that ends one.
   */
  datatype Mode = Code(escaped: bool) | Str(escaped: bool) | LineComment | BlockOpen | Block | BlockClose

  predicate At(s: string, i: nat, c: char) {
    i < |s| && s[i] == c
  }

  function NextInCode(s: string, i: nat, escaped: bool): Mode
    requires i < |s|
  {
    if s[i] == '"' && !escaped then Str(false)
    else if s[i] == '/' && At(s, i + 1, '/') then LineComment
    else if s[i] == '/' && At(s, i + 1, '*') then BlockOpen
    else Code(s[i] == '\\' && !escaped)
  }

  /** The mode after the character at `i`. */
  function Next(s: string, i: nat, m: Mode): Mode
    requires i < |s|
  {
    match m
    case Code(escaped) => NextInCode(s, i, escaped)
    case Str(escaped) => if s[i] == '"' && !escaped then Code(false) else Str(s[i] == '\\' && !escaped)
    case LineComment => if s[i] == '\n' then Code(false) else LineComment
    case BlockOpen => Block
    case Block => if s[i] == '*' && At(s, i + 1, '/') then BlockClose else Block
    case BlockClose => Code(false)
  }

  function ModeAt(s: string, i: nat): Mode
    requires i <= |s|
  {
    if i == 0 then Code(false) else Next(s, i - 1, ModeAt(s, i - 1))
  }

  predicate Bracket(c: char) { c == '}' || c == ']' }

  /** Only whitespace up to a closing bracket. */
  ghost predicate BracketAt(s: string, i: nat, j: nat) {
    i <= j < |s| && Bracket(s[j]) && forall k :: i <= k < j ==> IsWhitespace(s[k])
  }

  ghost predicate BracketNext(s: string, i: nat) {
    exists j: nat :: BracketAt(s, i, j)
  }

  /** Neither part of a comment nor a comma before a closing bracket. */
  ghost predicate Kept(s: string, i: nat)
    requires i < |s|
  {
    match ModeAt(s, i)
    case Code(escaped) =>
      && !NextInCode(s, i, escaped).LineComment? && !NextInCode(s, i, escaped).BlockOpen?
      && !(s[i] == ',' && BracketNext(s, i + 1))
    case Str(_) => true
    case LineComment => s[i] == '\n'
    case _ => false
  }

  /** The kept characters among the first `i`. */
  ghost function Keep(s: string, i: nat): string
    requires i <= |s|
  {
    if i == 0 then "" else Keep(s, i - 1) + if Kept(s, i - 1) then [s[i - 1]] else ""
  }

  // ---- The backward escape check ----

  /** The length of the run of backslashes that ends before `i`. */
  function Backslashes(s: string, i: nat): nat
    requires i <= |s|
  {
    if i == 0 || s[i - 1] != '\\' then 0 else 1 + Backslashes(s, i - 1)
  }

  method IsEscaped(s: string, pos: nat) returns (r: bool)
    requires pos < |s|
    ensures r <==> Backslashes(s, pos) % 2 != 0
  {
    if pos == 0 {
      return false;
    }
    var backslashes := 0;
    var i := pos - 1;
    while true
      invariant 0 <= i < pos && backslashes + Backslashes(s, i + 1) == Backslashes(s, pos)
      decreases i
    {
      if s[i] != '\\' {
        break;
      }
      backslashes := backslashes + 1;
      if i == 0 {
        break;
      }
      i := i - 1;
    }
    return backslashes % 2 != 0;
  }

  /** Looking back gives the bit the lexer carries forward. */
  lemma {:induction false} EscapesAgree(s: string, i: nat)
    requires i <= |s|
    ensures var m := ModeAt(s, i);
            m.Code? || m.Str? ==> (m.escaped <==> Backslashes(s, i) % 2 != 0)
  {
    if i > 0 {
      EscapesAgree(s, i - 1);
    }
  }

  // ---- The stripper ----

  /** An unclosed block comment with a body: the scan gives up one character before the end. */
  predicate GivesUp(s: string) {
    s != "" && ModeAt(s, |s| - 1).Block?
  }

  ghost function Stripped(s: string): string {
    Keep(s, |s|) + if GivesUp(s) then [s[|s| - 1]] else ""
  }

  method SkipLine(s: string, start: nat) returns (i: nat)
    requires start + 1 < |s| && ModeAt(s, start).Code? && Next(s, start, ModeAt(s, start)).LineComment?
    ensures start < i <= |s| && Keep(s, i) == Keep(s, start)
    ensures ModeAt(s, i).LineComment? && (i < |s| ==> s[i] == '\n')
  {
    i := start;
    while i < |s| && s[i] != '\n'
      invariant start <= i <= |s| && Keep(s, i) == Keep(s, start)
      invariant if i == start then s[i] == '/' else ModeAt(s, i).LineComment?
    {
      i := i + 1;
    }
  }

  /** Returns where the scan goes on, and whether it gave up. */
  method SkipBlock(s: string, start: nat) returns (i: nat, ghost gaveUp: bool)
    requires start + 1 < |s| && ModeAt(s, start).Code? && Next(s, start, ModeAt(s, start)).BlockOpen?
    ensures start < i <= |s| && Keep(s, i) == Keep(s, start)
    ensures !gaveUp ==> if i < |s| then ModeAt(s, i) == Code(false) else ModeAt(s, i) == Code(false) || !GivesUp(s)
    ensures gaveUp ==> i + 1 == |s| && ModeAt(s, i).Block?
  {
    i := start + 2;
    assert ModeAt(s, start + 1).BlockOpen?;
    while i + 1 < |s| && !(s[i] == '*' && s[i + 1] == '/')
      invariant start + 2 <= i <= |s| && (i < |s| || i == start + 2)
      invariant ModeAt(s, i).Block? && Keep(s, i) == Keep(s, start)
    {
      i := i + 1;
    }
    gaveUp := i + 1 == |s|;
    if i + 1 < |s| {
      assert ModeAt(s, i + 1).BlockClose?;
      i := i + 2;
    }
  }

  method TrailingComma(s: string, i: nat) returns (r: bool)
    requires i < |s|
    ensures r <==> BracketNext(s, i + 1)
  {
    var j := i + 1;
    while j < |s| && IsWhitespace(s[j])
      invariant i < j <= |s| && forall k :: i < k < j ==> IsWhitespace(s[k])
    {
      j := j + 1;
    }
    r := j < |s| && Bracket(s[j]);
    assert r ==> BracketAt(s, i + 1, j);
  }

  method StripJsonc(s: string) returns (result: string)
    ensures result == Stripped(s)
  {
    result := "";
    var i, inString := 0, false;
    ghost var gaveUp := false;
    while i < |s|
      invariant i <= |s|
      invariant !gaveUp ==> Scanning(s, i, inString) && result == Keep(s, i)
      invariant gaveUp ==> GaveUp(s, i, inString, result)
    {
      EscapesAgree(s, i);
      var escaped := IsEscaped(s, i);
      if s[i] == '"' && !escaped {
        inString := !inString;
        result := result + [s[i]];
        i := i + 1;
        continue;
      }
      if inString {
        result := result + [s[i]];
        i := i + 1;
        continue;
      }
      if i + 1 < |s| && s[i] == '/' && s[i + 1] == '/' {
        i := SkipLine(s, i);
        continue;
      }
      if i + 1 < |s| && s[i] == '/' && s[i + 1] == '*' {
        i, gaveUp := SkipBlock(s, i);
        continue;
      }
      if s[i] == ',' {
        var trailing := TrailingComma(s, i);
        if trailing {
          i := i + 1;
          continue;
        }
      }
      result := result + [s[i]];
      i := i + 1;
    }
  }

  /** The stripper stands where the lexer does; on the newline after a line comment it is back in code. */
  ghost predicate Scanning(s: string, i: nat, inString: bool)
    requires i <= |s|
  {
    if i == |s| then !GivesUp(s)
    else
      match ModeAt(s, i)
      case Code(_) => !inString
      case Str(_) => inString
      case LineComment => !inString && s[i] == '\n'
      case _ => false
  }

  ghost predicate GaveUp(s: string, i: nat, inString: bool, result: string)
    requires i <= |s|
  {
    && GivesUp(s)
    && ((i + 1 == |s| && !inString && result == Keep(s, i)) || (i == |s| && result == Keep(s, i) + [s[i - 1]]))
  }

  // ---- Against the plain reading of section 7 of RFC 8259 ----

  /** The lexer in which a quote outside strings and comments always opens a string. */
  function PlainNext(s: string, i: nat, m: Mode): Mode
    requires i < |s|
  {
    if m.Code? then NextInCode(s, i, false) else Next(s, i, m)
  }

  function PlainModeAt(s: string, i: nat): Mode
    requires i <= |s|
  {
    if i == 0 then Code(false) else PlainNext(s, i - 1, PlainModeAt(s, i - 1))
  }

  /** With no backslash outside strings and comments the two lexers agree. */
  lemma {:induction false} LexersAgree(s: string, i: nat)
    requires i <= |s| && forall k :: 0 <= k < |s| && PlainModeAt(s, k).Code? ==> s[k] != '\\'
    ensures ModeAt(s, i) == PlainModeAt(s, i)
    ensures ModeAt(s, i).Code? ==> !ModeAt(s, i).escaped
  {
    if i > 0 { LexersAgree(s, i - 1); }
  }

  // ---- Scanning the output again ----

  /** No backslash outside strings and comments, as in JSON. */
  ghost predicate PlainCode(s: string) {
    forall i :: 0 <= i < |s| && ModeAt(s, i).Code? ==> s[i] != '\\'
  }

  lemma {:induction false} PlainCodeUnescaped(s: string, i: nat)
    requires PlainCode(s) && i <= |s|
    ensures ModeAt(s, i) != Code(true)
  {
    if i > 0 { PlainCodeUnescaped(s, i - 1); }
  }

  lemma {:induction false} KeepGrows(s: string, i: nat, j: nat)
    requires i <= j <= |s|
    ensures Keep(s, i) <= Keep(s, j)
    decreases j
  {
    if i < j { KeepGrows(s, i, j - 1); }
  }

  function Squash(m: Mode): Mode {
    if m.Str? then m else Code(false)
  }

  lemma KeepNext(s: string, i: nat)
    requires i < |s|
    ensures Keep(s, i + 1) == Keep(s, i) + if Kept(s, i) then [s[i]] else ""
  {
  }

  lemma KeptWithin(s: string, o: string, i: nat)
    requires i < |s| && Kept(s, i) && Keep(s, i + 1) <= o
    ensures At(o, |Keep(s, i)|, s[i])
  {
    KeepNext(s, i);
    assert Keep(s, i + 1)[|Keep(s, i)|] == s[i];
  }

  lemma KeptAt(s: string, o: string, i: nat)
    requires o == Keep(s, |s|) && i < |s| && Kept(s, i)
    ensures At(o, |Keep(s, i)|, s[i])
  {
    KeepGrows(s, i + 1, |s|);
    KeptWithin(s, o, i);
  }

  /** The character kept after a slash in code. */
  lemma KeptAfterSlash(s: string, i: nat) returns (d: nat)
    requires i + 1 < |s| && ModeAt(s, i) == Code(false) && Kept(s, i) && s[i] == '/'
    ensures i < d < |s| && Kept(s, d) && s[d] != '/' && s[d] != '*' && |Keep(s, d)| == |Keep(s, i)| + 1
  {
    KeepNext(s, i);
    d := i + 1;
    assert ModeAt(s, d) == Code(false);
    if !Kept(s, d) {
      KeepNext(s, d);
      var j: nat :| BracketAt(s, i + 2, j);
      d := i + 2;
      assert d < j ==> IsWhitespace(s[d]);
    }
  }

  /** No new comment forms: what follows a kept slash in the output is neither slash nor star. */
  lemma SlashStaysAlone(s: string, o: string, i: nat)
    requires o == Keep(s, |s|) && i < |s| && ModeAt(s, i) == Code(false) && Kept(s, i) && s[i] == '/'
    ensures var k := |Keep(s, i)| + 1; !At(o, k, '/') && !At(o, k, '*')
  {
    if i + 1 < |s| {
      var d := KeptAfterSlash(s, i);
      KeptAt(s, o, d);
    } else {
      KeepNext(s, i);
    }
  }

  /** A kept character leads the lexer of the output where it led the lexer of the input. */
  lemma KeptStep(s: string, o: string, i: nat)
    requires PlainCode(s) && o == Keep(s, |s|) && i < |s| && Kept(s, i)
    ensures var k := |Keep(s, i)|;
            k < |o| && o[k] == s[i] && Next(o, k, Squash(ModeAt(s, i))) == Squash(ModeAt(s, i + 1))
  {
    KeptAt(s, o, i);
    PlainCodeUnescaped(s, i);
    if ModeAt(s, i).Code? && s[i] == '/' { SlashStaysAlone(s, o, i); }
  }

  lemma DroppedStep(s: string, i: nat)
    requires PlainCode(s) && i < |s| && !Kept(s, i)
    ensures Squash(ModeAt(s, i + 1)) == Squash(ModeAt(s, i))
  {
    PlainCodeUnescaped(s, i);
  }

  lemma {:induction false} Rescan(s: string, o: string, i: nat)
    requires PlainCode(s) && o == Keep(s, |s|) && i <= |s|
    ensures |Keep(s, i)| <= |o| && ModeAt(o, |Keep(s, i)|) == Squash(ModeAt(s, i))
  {
    KeepGrows(s, i, |s|);
    if i > 0 {
      Rescan(s, o, i - 1);
      if Kept(s, i - 1) {
        KeptStep(s, o, i - 1);
      } else {
        DroppedStep(s, i - 1);
      }
    }
  }

  lemma {:induction false} EveryOutputPosition(s: string, i: nat, k: nat) returns (j: nat)
    requires i <= |s| && k <= |Keep(s, i)|
    ensures j <= i && |Keep(s, j)| == k
  {
    if k == |Keep(s, i)| { j := i; } else { j := EveryOutputPosition(s, i - 1, k); }
  }

  /** What is kept rescans without a comment and with the same literals. */
  lemma KeptRescans(s: string)
    requires PlainCode(s)
    ensures ReadsAlike(s, Keep(s, |s|))
  {
    var o := Keep(s, |s|);
    forall k | 0 <= k <= |o| ensures ModeAt(o, k).Code? || ModeAt(o, k).Str? {
      var j := EveryOutputPosition(s, |s|, k);
      Rescan(s, o, j);
    }
    forall i | 0 <= i < |s| && Kept(s, i) ensures SameReading(s, o, i) {
      Rescan(s, o, i);
      KeptAt(s, o, i);
    }
    Rescan(s, o, |s|);
  }

  /**
   Scanning `o` again finds no comment; each character of `s` that was kept is inside a string
   literal there exactly if it was in `s`, those of literals are all kept, and a literal is left
   open at the end exactly if `s` leaves one open.
   */
  ghost predicate ReadsAlike(s: string, o: string) {
    && (forall k :: 0 <= k <= |o| ==> ModeAt(o, k).Code? || ModeAt(o, k).Str?)
    && (forall i :: 0 <= i < |s| && Kept(s, i) ==> SameReading(s, o, i))
    && (forall i :: 0 <= i < |s| && ModeAt(s, i).Str? ==> Kept(s, i))
    && (ModeAt(o, |o|).Str? <==> ModeAt(s, |s|).Str?)
  }

  /** With nothing to look ahead to, one more character changes no earlier mode. */
  lemma {:induction false} OneMoreCharacter(o: string, c: char, k: nat)
    requires k <= |o| && forall j :: 0 <= j <= |o| ==> ModeAt(o, j).Code? || ModeAt(o, j).Str?
    requires o != "" && ModeAt(o, |o| - 1).Code? ==> o[|o| - 1] != '/'
    ensures ModeAt(o + [c], k) == ModeAt(o, k)
  {
    if k > 0 {
      OneMoreCharacter(o, c, k - 1);
      assert (o + [c])[k - 1] == o[k - 1];
      assert k < |o| ==> (o + [c])[k] == o[k];
    }
  }

  /** While a comment is open at the end, the last kept character of the code is no slash. */
  lemma NoSlashBeforeTheEnd(s: string, o: string)
    requires PlainCode(s) && GivesUp(s) && o == Keep(s, |s|)
    ensures o != "" && ModeAt(o, |o| - 1).Code? ==> o[|o| - 1] != '/'
  {
    if o != "" && ModeAt(o, |o| - 1).Code? && o[|o| - 1] == '/' {
      var i := LastKept(s, |s|);
      Rescan(s, o, i);
      PlainCodeUnescaped(s, i);
      KeptAt(s, o, i);
      KeptSlashIsCode(s, i);
      var d := KeptAfterSlash(s, i);
      KeepGrows(s, d + 1, |s|);
      KeepNext(s, d);
    }
  }

  /** A kept character that reads as code is code, or the line feed that ends a comment. */
  lemma KeptSlashIsCode(s: string, i: nat)
    requires i < |s| && Kept(s, i) && s[i] == '/' && !ModeAt(s, i).Str?
    ensures ModeAt(s, i).Code?
  {
  }

  lemma {:induction false} LastKept(s: string, n: nat) returns (i: nat)
    requires n <= |s| && Keep(s, n) != ""
    ensures i < n && Kept(s, i) && |Keep(s, i)| + 1 == |Keep(s, n)| && Keep(s, n)[|Keep(s, n)| - 1] == s[i]
  {
    if Kept(s, n - 1) { i := n - 1; } else { i := LastKept(s, n - 1); }
  }

  /** Giving up adds one character of the comment: it reads as code, unless it is a quote, which opens a literal. */
  lemma GivingUpReads(s: string)
    requires PlainCode(s) && GivesUp(s)
    ensures ReadsAlike(s, Stripped(s)) <==> s[|s| - 1] != '"'
  {
    var o, c := Keep(s, |s|), s[|s| - 1];
    KeptRescans(s);
    NoSlashBeforeTheEnd(s, o);
    forall k | 0 <= k <= |o| ensures ModeAt(o + [c], k) == ModeAt(o, k) { OneMoreCharacter(o, c, k); }
    assert ModeAt(s, |s|).Block?;
    Rescan(s, o, |s|);
    assert ModeAt(o + [c], |o|) == Code(false);
    assert ModeAt(o + [c], |o| + 1) == NextInCode(o + [c], |o|, false);
    forall i | 0 <= i < |s| && Kept(s, i) ensures SameReading(s, o + [c], i) {
      assert SameReading(s, o, i);
    }
  }

  /**
   With no backslash in code, scanning the stripper's output finds no comment and the same
   literals exactly unless an unclosed comment ends in a quote.
   */
  lemma RescanFindsTheSameLiterals(s: string)
    requires PlainCode(s)
    ensures ReadsAlike(s, Stripped(s)) <==> !(GivesUp(s) && s[|s| - 1] == '"')
  {
    if GivesUp(s) {
      GivingUpReads(s);
    } else {
      KeptRescans(s);
      assert Stripped(s) == Keep(s, |s|);
    }
  }

  ghost predicate SameReading(s: string, o: string, i: nat)
    requires i < |s|
  {
    var k := |Keep(s, i)|;
    k < |o| && o[k] == s[i] && (ModeAt(o, k).Str? <==> ModeAt(s, i).Str?)
  }

  // ---- Which commas go ----

  /** Between the comma at `i` and the closing bracket at `j` there is only whitespace and comments. */
  ghost predicate TrailsTo(s: string, i: nat, j: nat) {
    && i < j < |s| && ModeAt(s, j).Code? && Bracket(s[j])
    && forall k :: i < k < j ==> Blank(s, k)
  }

  ghost predicate Blank(s: string, k: nat)
    requires k < |s|
  {
    match ModeAt(s, k)
    case Code(_) => IsWhitespace(s[k]) || !(ModeAt(s, k + 1).Code? || ModeAt(s, k + 1).Str?)
    case Str(_) => false
    case _ => true
  }

  lemma {:induction false} WhitespaceStaysCode(s: string, i: nat, j: nat)
    requires i <= j <= |s| && ModeAt(s, i).Code? && forall k :: i <= k < j ==> IsWhitespace(s[k])
    ensures ModeAt(s, j).Code?
    decreases j
  {
    if i < j { WhitespaceStaysCode(s, i, j - 1); }
  }

  ghost predicate NoCommentWithin(s: string, i: nat, j: nat)
    requires j <= |s|
  {
    forall k :: i < k <= j ==> ModeAt(s, k).Code?
  }

  /** Of the commas that trail to a bracket, those go that have no comment in between; no other comma goes. */
  lemma CommaGoesIff(s: string, i: nat)
    requires i < |s| && ModeAt(s, i).Code? && s[i] == ','
    ensures !Kept(s, i) <==> exists j: nat :: TrailsTo(s, i, j) && NoCommentWithin(s, i, j)
  {
    if !Kept(s, i) {
      var j: nat :| BracketAt(s, i + 1, j);
      forall k | i < k <= j ensures ModeAt(s, k).Code? {
        WhitespaceStaysCode(s, i + 1, k);
      }
      assert TrailsTo(s, i, j) && NoCommentWithin(s, i, j);
    }
    if j: nat :| TrailsTo(s, i, j) && NoCommentWithin(s, i, j) {
      forall k | i < k < j ensures IsWhitespace(s[k]) {
        assert Blank(s, k) && ModeAt(s, k).Code? && ModeAt(s, k + 1).Code?;
      }
      assert BracketAt(s, i + 1, j);
    }
  }

  /** A comma goes right before a closing brace or bracket and stays before any other visible character. */
  lemma CommaBeforeCloser(s: string, i: nat)
    requires i + 1 < |s| && ModeAt(s, i).Code? && s[i] == ',' && !IsWhitespace(s[i + 1])
    ensures !Kept(s, i) <==> s[i + 1] == '}' || s[i + 1] == ']'
  {
    if s[i + 1] == '}' || s[i + 1] == ']' { assert BracketAt(s, i + 1, i + 1); }
    if BracketNext(s, i + 1) {
      var j: nat :| BracketAt(s, i + 1, j);
      assert Bracket(s[j]) && !(i + 1 < j);
    }
  }

  // ---- Comments go and literals stay ----

  /** From two slashes in code to the end of the line everything goes; the line feed stays. */
  lemma {:induction false} LineCommentGoes(s: string, i: nat, j: nat)
    requires i + 2 <= j <= |s| && ModeAt(s, i).Code? && s[i] == '/' && s[i + 1] == '/'
    requires forall k :: i <= k < j ==> s[k] != '\n'
    ensures ModeAt(s, j).LineComment? && Keep(s, j) == Keep(s, i)
    ensures At(s, j, '\n') ==> ModeAt(s, j + 1) == Code(false) && Keep(s, j + 1) == Keep(s, i) + "\n"
    decreases j
  {
    if j > i + 2 {
      LineCommentGoes(s, i, j - 1);
    } else {
      assert ModeAt(s, i + 1).LineComment? && Keep(s, i + 1) == Keep(s, i);
    }
  }

  lemma {:induction false} InsideBlock(s: string, i: nat, j: nat)
    requires i + 2 <= j < |s| && ModeAt(s, i).Code? && s[i] == '/' && s[i + 1] == '*'
    requires forall k :: i + 2 <= k < j ==> !(s[k] == '*' && s[k + 1] == '/')
    ensures ModeAt(s, j).Block? && Keep(s, j) == Keep(s, i)
    decreases j
  {
    if j > i + 2 {
      InsideBlock(s, i, j - 1);
    } else {
      assert ModeAt(s, i + 1).BlockOpen? && Keep(s, i + 1) == Keep(s, i);
    }
  }

  /** From slash and star in code to the first star and slash behind them everything goes. */
  lemma BlockCommentGoes(s: string, i: nat, j: nat)
    requires i + 2 <= j && j + 1 < |s| && ModeAt(s, i).Code? && s[i] == '/' && s[i + 1] == '*'
    requires s[j] == '*' && s[j + 1] == '/' && forall k :: i + 2 <= k < j ==> !(s[k] == '*' && s[k + 1] == '/')
    ensures ModeAt(s, j + 2) == Code(false) && Keep(s, j + 2) == Keep(s, i)
  {
    InsideBlock(s, i, j);
    assert ModeAt(s, j + 1).BlockClose? && Keep(s, j + 1) == Keep(s, i);
  }

  /** A literal stays to the letter, whatever looks like a comment or a trailing comma in it. */
  lemma {:induction false} LiteralStays(s: string, i: nat, j: nat)
    requires i < j <= |s| && ModeAt(s, i) == Code(false) && s[i] == '"'
    requires forall k :: i < k < j ==> s[k] != '"' && s[k] != '\\'
    ensures ModeAt(s, j) == Str(false) && Keep(s, j) == Keep(s, i) + s[i..j]
    ensures At(s, j, '"') ==> ModeAt(s, j + 1) == Code(false) && Keep(s, j + 1) == Keep(s, i) + s[i..j + 1]
    decreases j
  {
    if j > i + 1 {
      LiteralStays(s, i, j - 1);
      assert s[i..j] == s[i..j - 1] + [s[j - 1]];
    } else {
      assert s[i..j] == [s[i]];
    }
    if At(s, j, '"') { assert s[i..j + 1] == s[i..j] + [s[j]]; }
  }

  // ---- Where the output is not what one would want ----

  /** A comma separated from the bracket by a comment stays, and then trails in the output. */
  lemma CommaBeforeCommentStays()
    ensures var s := "[,/**/]"; Stripped(s) == "[,]" && TrailsTo(s, 1, 6)
  {
    var s := "[,/**/]";
    assert ModeAt(s, 1) == Code(false) && ModeAt(s, 2) == Code(false) && ModeAt(s, 3) == BlockOpen;
    assert ModeAt(s, 4) == Block && ModeAt(s, 5) == BlockClose && ModeAt(s, 6) == Code(false);
    assert !BracketNext(s, 2) by {
      assert s[2] == '/';
    }
    assert Keep(s, 1) == "[" && Keep(s, 2) == "[,";
    assert Keep(s, 3) == "[," && Keep(s, 4) == "[," && Keep(s, 5) == "[,";
    assert Keep(s, 6) == "[,";
    assert Keep(s, 7) == "[,]";
  }

  /** Removing a comment can put a stray backslash before a quote, which then opens no string. */
  lemma BackslashCanMeetQuote()
    ensures var s := "\\/**/\"";
            && !PlainCode(s) && ModeAt(s, 6).Str?
            && Stripped(s) == "\\\"" && ModeAt(Stripped(s), 2).Code?
  {
    var s := "\\/**/\"";
    assert ModeAt(s, 1) == Code(true) && ModeAt(s, 2) == BlockOpen && ModeAt(s, 3) == Block;
    assert ModeAt(s, 4) == BlockClose && ModeAt(s, 5) == Code(false) && ModeAt(s, 6) == Str(false);
    assert Keep(s, 1) == "\\" && Keep(s, 2) == "\\" && Keep(s, 3) == "\\" && Keep(s, 4) == "\\";
    assert Keep(s, 5) == "\\";
    assert Keep(s, 6) == "\\\"";
    var o := Stripped(s);
    assert o == "\\\"" && ModeAt(o, 1) == Code(true);
  }

  /** An unclosed comment that ends in a quote: the output opens a string where the input has none. */
  lemma UnclosedCommentCanOpenString()
    ensures var s := "/*a\"";
            && PlainCode(s) && GivesUp(s) && (forall i :: 0 <= i <= |s| ==> !ModeAt(s, i).Str?)
            && Stripped(s) == "\"" && ModeAt(Stripped(s), 1).Str?
  {
    var s := "/*a\"";
    assert ModeAt(s, 1) == BlockOpen && ModeAt(s, 2) == Block && ModeAt(s, 3) == Block && ModeAt(s, 4) == Block;
    assert Keep(s, 1) == "" && Keep(s, 2) == "" && Keep(s, 3) == "";
    assert Keep(s, 4) == "";
    assert Stripped(s) == "\"";
  }
}
