/**
 Compaction of long tool responses, at the level of UTF-8 byte offsets.  Line counts and the
 printing of numbers are parameters.
 */
module ToolResponse {
  import opened Prelude

  const MAX_BYTES := 12000
  const HEAD_BUDGET := 8400
  const TAIL_BUDGET := 1200

  function Width(c: char): (w: nat)
    ensures 1 <= w <= 4
  {
    if c < '\U{80}' then 1 else if c < '\U{800}' then 2 else if c < '\U{10000}' then 3 else 4
  }

  function Bytes(s: string): nat {
    if s == "" then 0 else Bytes(s[..|s| - 1]) + Width(s[|s| - 1])
  }

  /** The byte offset at which character `k` starts. */
  function Offset(s: string, k: nat): nat
    requires k <= |s|
  {
    Bytes(s[..k])
  }

  ghost predicate Boundary(s: string, offset: nat) {
    exists k: nat :: k <= |s| && Offset(s, k) == offset
  }

  /** The first character from `k` on that does not start before `budget`. */
  function HeadEnd(s: string, budget: nat, k: nat): (e: nat)
    requires k <= |s|
    ensures k <= e <= |s|
    decreases |s| - k
  {
    if k < |s| && Offset(s, k) < budget then HeadEnd(s, budget, k + 1) else k
  }

  /** The character that starts at `offset`, looking from `k` on. */
  function CharAt(s: string, offset: nat, k: nat): (r: Option<nat>)
    requires k <= |s|
    ensures r.Some? ==> k <= r.value <= |s| && Offset(s, r.value) == offset
    ensures r.None? ==> forall j: nat :: k <= j <= |s| ==> Offset(s, j) != offset
    decreases |s| - k
  {
    if Offset(s, k) == offset then Some(k)
    else if k < |s| then CharAt(s, offset, k + 1)
    else None
  }

  datatype Printing = Printing(lines: string -> nat, show: nat -> string)

  function Marker(p: Printing, s: string, head: string, tail: string): string {
    var total, shown := p.lines(s), p.lines(head) + p.lines(tail);
    "\n\n... [" + p.show(if total >= shown then total - shown else 0) + " lines truncated, "
    + p.show(total) + " total] ...\n\n"
  }

  /** `None` stands for the panic on slicing inside a character. */
  function Compact(p: Printing, s: string): Option<string> {
    if Bytes(s) <= MAX_BYTES then Some(s)
    else
      match CharAt(s, Bytes(s) - TAIL_BUDGET, 0)
      case None => None
      case Some(k) =>
        var head, tail := s[..HeadEnd(s, HEAD_BUDGET, 0)], s[k..];
        Some(head + Marker(p, s, head, tail) + tail)
  }

  lemma OffsetNext(s: string, k: nat)
    requires k < |s|
    ensures Offset(s, k + 1) == Offset(s, k) + Width(s[k])
  {
    assert s[..k + 1][..k] == s[..k];
  }

  lemma {:induction false} OffsetsGrow(s: string, j: nat, k: nat)
    requires j < k <= |s|
    ensures Offset(s, j) < Offset(s, k)
    decreases k
  {
    OffsetNext(s, k - 1);
    if j < k - 1 { OffsetsGrow(s, j, k - 1); }
  }

  lemma {:induction false} BytesSplit(a: string, b: string)
    ensures Bytes(a + b) == Bytes(a) + Bytes(b)
    decreases |b|
  {
    if b == "" {
      assert a + b == a;
    } else {
      assert (a + b)[..|a + b| - 1] == a + b[..|b| - 1];
      BytesSplit(a, b[..|b| - 1]);
    }
  }

  lemma {:induction false} HeadFills(s: string, budget: nat, k: nat)
    requires k <= |s| && Bytes(s) >= budget > 0 && (k > 0 ==> Offset(s, k - 1) < budget)
    ensures var e := HeadEnd(s, budget, k);
            k <= e <= |s| && budget <= Offset(s, e) < budget + 4
    decreases |s| - k
  {
    assert s[..|s|] == s;
    if k < |s| && Offset(s, k) < budget {
      HeadFills(s, budget, k + 1);
    } else if k > 0 {
      OffsetNext(s, k - 1);
    }
  }

  /** Compaction panics exactly when 1200 bytes before the end is not a character boundary. */
  lemma CompactPanicsIff(p: Printing, s: string)
    ensures Compact(p, s).None? <==> Bytes(s) > 12000 && !Boundary(s, Bytes(s) - 1200)
    ensures Bytes(s) <= 12000 ==> Compact(p, s) == Some(s)
  {
  }

  /** The first 8400 bytes up to the end of a character, a marker, and the last 1200 bytes; nothing is shown twice. */
  lemma CompactKeepsBothEnds(p: Printing, s: string)
    requires Bytes(s) > MAX_BYTES && Compact(p, s).Some?
    ensures exists e: nat, k: nat ::
              Ends(s, e, k) && Compact(p, s).value == s[..e] + Marker(p, s, s[..e], s[k..]) + s[k..]
  {
    HeadFills(s, HEAD_BUDGET, 0);
    var e := HeadEnd(s, HEAD_BUDGET, 0);
    var k := CharAt(s, Bytes(s) - TAIL_BUDGET, 0).value;
    assert s == s[..k] + s[k..];
    BytesSplit(s[..k], s[k..]);
    if e >= k {
      if e > k { OffsetsGrow(s, k, e); }
      assert false;
    }
    assert Ends(s, e, k);
  }

  /** The marker counts the lines that neither end shows. */
  lemma MarkerCountsLines(p: Printing, s: string, head: string, tail: string, hidden: nat)
    requires p.lines(head) + p.lines(tail) + hidden == p.lines(s)
    ensures Marker(p, s, head, tail) ==
            "\n\n... [" + p.show(hidden) + " lines truncated, " + p.show(p.lines(s)) + " total] ...\n\n"
  {
  }

  ghost predicate Ends(s: string, e: nat, k: nat) {
    && e < k <= |s| && 8400 <= Bytes(s[..e]) < 8404 && Bytes(s[k..]) == 1200
  }

  /** If the numerals up to the line count take at most 1000 bytes each, the result is shorter than the input. */
  lemma CompactShrinks(p: Printing, s: string)
    requires Bytes(s) > MAX_BYTES && Compact(p, s).Some?
    requires forall n: nat :: n <= p.lines(s) ==> Bytes(p.show(n)) <= 1000
    ensures Bytes(Compact(p, s).value) < Bytes(s)
  {
    CompactKeepsBothEnds(p, s);
    var e: nat, k: nat :| Ends(s, e, k) && Compact(p, s).value == s[..e] + Marker(p, s, s[..e], s[k..]) + s[k..];
    var m := Marker(p, s, s[..e], s[k..]);
    MarkerIsShort(p, s, s[..e], s[k..]);
    BytesSplit(s[..e] + m, s[k..]);
    BytesSplit(s[..e], m);
  }

  lemma {:induction false} BytesBound(s: string)
    ensures Bytes(s) <= 4 * |s|
  {
    if s != "" { BytesBound(s[..|s| - 1]); }
  }

  lemma MarkerIsShort(p: Printing, s: string, head: string, tail: string)
    requires forall n: nat :: n <= p.lines(s) ==> Bytes(p.show(n)) <= 1000
    ensures Bytes(Marker(p, s, head, tail)) <= 2300
  {
    var total, shown := p.lines(s), p.lines(head) + p.lines(tail);
    var a, b := p.show(if total >= shown then total - shown else 0), p.show(total);
    var x, y, z := "\n\n... [", " lines truncated, ", " total] ...\n\n";
    BytesSplit(x, a);
    BytesSplit(x + a, y);
    BytesSplit(x + a + y, b);
    BytesSplit(x + a + y + b, z);
    BytesBound(x);
    BytesBound(y);
    BytesBound(z);
  }

  function Repeat(c: char, n: nat): string {
    if n == 0 then "" else Repeat(c, n - 1) + [c]
  }

  lemma {:induction false} RepeatOffsets(c: char, n: nat, k: nat)
    requires k <= n && Width(c) == 2
    ensures |Repeat(c, n)| == n && Bytes(Repeat(c, n)) == 2 * n && Offset(Repeat(c, n), k) == 2 * k
  {
    if n > 0 {
      var front, all := Repeat(c, n - 1), Repeat(c, n);
      RepeatOffsets(c, n - 1, if k == n then 0 else k);
      assert all[..n - 1] == front;
      assert all[..k] == if k == n then all else front[..k];
    }
  }

  /** Six thousand two-byte characters and a letter: the cut would fall inside a character. */
  lemma CompactCanPanic(p: Printing)
    ensures Compact(p, Repeat('\U{E9}', 6000) + "a").None?
  {
    var r := Repeat('\U{E9}', 6000);
    var s := r + "a";
    RepeatOffsets('\U{E9}', 6000, 0);
    BytesSplit(r, "a");
    assert "a"[..0] == "";
    assert Bytes("a") == 1;
    forall k: nat | k <= |s| ensures Offset(s, k) != 10801 {
      if k <= 6000 {
        RepeatOffsets('\U{E9}', 6000, k);
        assert s[..k] == r[..k];
      } else {
        assert s[..k] == s;
      }
    }
    CompactPanicsIff(p, s);
  }
}
