/** Splicing replacements into a source text, and finding their spans from UTF-8 byte columns. */
module SourceEdits {
  import opened Prelude
  import opened Utf8
  import Ordering

  datatype Edit = Edit(start: nat, end: nat, replacement: string)

  /** The tuple order `sorted` uses. */
  predicate Before(a: Edit, b: Edit) {
    || a.start < b.start
    || (a.start == b.start && a.end < b.end)
    || (a.start == b.start && a.end == b.end && Ordering.Less(a.replacement, b.replacement))
  }

  predicate Descending(edits: seq<Edit>) {
    forall i, j :: 0 <= i < j < |edits| ==> !Before(edits[i], edits[j])
  }

  lemma BeforeOrder(a: Edit, b: Edit, c: Edit)
    ensures a == b || Before(a, b) || Before(b, a)
    ensures !(Before(a, b) && Before(b, a))
    ensures Before(a, b) && Before(b, c) ==> Before(a, c)
  {
    Ordering.LessTotal(a.replacement, b.replacement);
    if Ordering.Less(a.replacement, b.replacement) {
      Ordering.LessAsymmetric(a.replacement, b.replacement);
      if Ordering.Less(b.replacement, c.replacement) {
        Ordering.LessTransitive(a.replacement, b.replacement, c.replacement);
      }
    }
  }

  /** `sorted(edits, reverse=True)`. */
  function SortedDescending(edits: seq<Edit>): (r: seq<Edit>)
    ensures multiset(r) == multiset(edits) && Descending(r)
  {
    if edits == [] then []
    else
      assert edits == [edits[0]] + edits[1..];
      Insert(edits[0], SortedDescending(edits[1..]))
  }

  function Insert(e: Edit, sorted: seq<Edit>): (r: seq<Edit>)
    requires Descending(sorted)
    ensures multiset(r) == multiset(sorted) + multiset{e} && Descending(r)
  {
    if sorted == [] then [e]
    else if Before(sorted[0], e) then
      InsertFront(e, sorted);
      [e] + sorted
    else
      assert sorted == [sorted[0]] + sorted[1..];
      var r := Insert(e, sorted[1..]);
      InsertBehind(e, sorted, r);
      [sorted[0]] + r
  }

  lemma InsertFront(e: Edit, sorted: seq<Edit>)
    requires Descending(sorted) && sorted != [] && Before(sorted[0], e)
    ensures Descending([e] + sorted)
  {
    forall i, j | 0 <= i < j < |sorted| + 1 ensures !Before(([e] + sorted)[i], ([e] + sorted)[j]) {
      if i == 0 {
        BeforeOrder(e, sorted[j - 1], sorted[0]);
        BeforeOrder(sorted[0], e, sorted[j - 1]);
        BeforeOrder(e, sorted[0], e);
      }
    }
  }

  lemma InsertBehind(e: Edit, sorted: seq<Edit>, r: seq<Edit>)
    requires Descending(sorted) && sorted != [] && !Before(sorted[0], e)
    requires Descending(r) && multiset(r) == multiset(sorted[1..]) + multiset{e}
    ensures Descending([sorted[0]] + r)
  {
    forall j | 0 <= j < |r| ensures !Before(sorted[0], r[j]) {
      assert r[j] in multiset(r);
      if r[j] != e {
        assert r[j] in sorted[1..];
        var k :| 0 <= k < |sorted[1..]| && sorted[1..][k] == r[j];
        assert sorted[k + 1] == r[j];
      }
    }
  }

  // ---------------------------------------------------------------- what the edits mean together

  predicate Apart(a: Edit, b: Edit) {
    (a.end <= b.start || b.end <= a.start) && (a.start != b.start || a.end != b.end)
  }

  /** Spans inside the source that do not overlap; they may touch, and may be empty. */
  predicate Disjoint(source: string, edits: seq<Edit>) {
    && (forall i :: 0 <= i < |edits| ==> edits[i].start <= edits[i].end <= |source|)
    && (forall i, j :: 0 <= i < j < |edits| ==> Apart(edits[i], edits[j]))
  }

  predicate AllApart(source: string, edits: set<Edit>) {
    && (forall e :: e in edits ==> e.start <= e.end <= |source|)
    && (forall a, b :: a in edits && b in edits && a != b ==> Apart(a, b))
  }

  predicate StartsAt(e: Edit, p: nat, empty: bool) {
    e.start == p && (e.start == e.end) == empty
  }

  /** The text put in at a position by the edit with an empty, or a non-empty, span starting there. */
  ghost function Replacing(edits: set<Edit>, p: nat, empty: bool): string {
    if exists e :: e in edits && StartsAt(e, p, empty) then
      var e :| e in edits && StartsAt(e, p, empty);
      e.replacement
    else ""
  }

  predicate Covered(edits: set<Edit>, p: nat) {
    exists e :: e in edits && e.start <= p < e.end
  }

  /**
   * All edits at once, left to right: each position gives the replacements that start there and then its own
   * character, unless a span covers it.
   */
  ghost function Simultaneous(source: string, edits: set<Edit>, p: nat): string
    requires p <= |source|
    decreases |source| - p, 1
  {
    Replacing(edits, p, true) + Replacing(edits, p, false) + FromCharacter(source, edits, p)
  }

  ghost function FromCharacter(source: string, edits: set<Edit>, p: nat): string
    requires p <= |source|
    decreases |source| - p, 0
  {
    if p == |source| then ""
    else if Covered(edits, p) then Simultaneous(source, edits, p + 1)
    else [source[p]] + Simultaneous(source, edits, p + 1)
  }

  /** The three things a position can begin with: nothing, one insertion, or one replaced span. */
  lemma PositionStart(source: string, edits: set<Edit>, p: nat)
    requires p <= |source|
    ensures var empty, span := Replacing(edits, p, true), Replacing(edits, p, false);
      && (empty == "" ==> Simultaneous(source, edits, p) == span + FromCharacter(source, edits, p))
      && (span == "" ==> Simultaneous(source, edits, p) == empty + FromCharacter(source, edits, p))
      && Simultaneous(source, edits, p) == empty + (span + FromCharacter(source, edits, p))
  {
    Grouped(Replacing(edits, p, true), Replacing(edits, p, false), FromCharacter(source, edits, p));
    hide Replacing, FromCharacter;
  }

  lemma Grouped(a: string, b: string, c: string)
    ensures a + b + c == a + (b + c)
    ensures a == "" ==> a + b + c == b + c
    ensures b == "" ==> a + b + c == a + c
  {
  }

  /** For any list order, splicing from the right is the simultaneous splice. */
  method ApplySourceEdits(source: string, edits: seq<Edit>) returns (candidate: string)
    requires Disjoint(source, edits)
    ensures candidate == Simultaneous(source, Elements(edits), 0)
  {
    candidate := source;
    var sorted := SortedDescending(edits);
    SortedRightToLeft(source, edits, sorted);
    hide Simultaneous, AllApart, RightToLeft;
    NothingToDo(source, 0);
    assert Elements(sorted[..0]) == {} && source[0..] == source;
    for i := 0 to |sorted|
      invariant candidate == Simultaneous(source, Elements(sorted[..i]), 0)
    {
      var e := sorted[i];
      NextEdit(source, sorted, i);
      SpliceOne(source, Elements(sorted[..i]), e);
      candidate := candidate[..e.start] + e.replacement + candidate[e.end..];
    }
    assert sorted[..|sorted|] == sorted;
  }

  /** Every later edit lies to the left of every earlier one. */
  predicate RightToLeft(source: string, sorted: seq<Edit>) {
    && (forall i :: 0 <= i < |sorted| ==> sorted[i].start <= sorted[i].end <= |source|)
    && (forall i, j :: 0 <= i < j < |sorted| ==>
         sorted[j].end <= sorted[i].start && Apart(sorted[i], sorted[j]))
  }

  lemma SortedRightToLeft(source: string, edits: seq<Edit>, sorted: seq<Edit>)
    requires Disjoint(source, edits)
    requires multiset(sorted) == multiset(edits) && Descending(sorted)
    ensures RightToLeft(source, sorted)
    ensures Elements(sorted) == Elements(edits)
  {
    forall e ensures e in sorted <==> e in edits {
      assert e in sorted <==> e in multiset(sorted);
      assert e in edits <==> e in multiset(edits);
    }
    OnceEach(edits);
    PlacedOnce(sorted);
    forall i, j | 0 <= i < j < |sorted| ensures sorted[j].end <= sorted[i].start && Apart(sorted[i], sorted[j]) {
      assert sorted[i] in edits && sorted[j] in edits && sorted[i] != sorted[j];
      assert !Before(sorted[i], sorted[j]);
    }
    forall i | 0 <= i < |sorted| ensures sorted[i].start <= sorted[i].end <= |source| {
      assert sorted[i] in edits;
    }
  }

  lemma {:induction false} OnceEach(edits: seq<Edit>)
    requires NoDuplicates(edits)
    ensures forall e :: multiset(edits)[e] <= 1
  {
    if edits != [] {
      OnceEach(edits[1..]);
      assert edits == [edits[0]] + edits[1..];
      assert edits[0] !in edits[1..];
    }
  }

  lemma PlacedOnce(edits: seq<Edit>)
    requires forall e :: multiset(edits)[e] <= 1
    ensures NoDuplicates(edits)
  {
    forall i, j | 0 <= i < j < |edits| ensures edits[i] != edits[j] {
      var e := edits[j];
      assert edits == edits[..j] + [e] + edits[j + 1..];
      assert multiset(edits)[e] == multiset(edits[..j])[e] + 1 + multiset(edits[j + 1..])[e];
      assert edits[i] in edits[..j];
    }
  }

  /** The edit comes next: it lies left of all that are done. */
  ghost predicate IsNext(source: string, done: set<Edit>, e: Edit) {
    && e.start <= e.end <= |source|
    && AllApart(source, done + {e})
    && e !in done
    && forall d :: d in done ==> e.end <= d.start
  }

  lemma NextEdit(source: string, sorted: seq<Edit>, i: nat)
    requires RightToLeft(source, sorted) && i < |sorted|
    ensures Elements(sorted[..i + 1]) == Elements(sorted[..i]) + {sorted[i]}
    ensures IsNext(source, Elements(sorted[..i]), sorted[i])
  {
    assert sorted[..i + 1] == sorted[..i] + [sorted[i]];
  }

  lemma {:induction false} NothingToDo(source: string, p: nat)
    requires p <= |source|
    ensures Simultaneous(source, {}, p) == source[p..]
    decreases |source| - p
  {
    if p < |source| {
      NothingToDo(source, p + 1);
      assert source[p..] == [source[p]] + source[p + 1..];
    }
  }

  lemma Untouched(source: string, edits: set<Edit>, p: nat)
    requires p < |source|
    requires forall e :: e in edits ==> p < e.start
    ensures Simultaneous(source, edits, p) == [source[p]] + Simultaneous(source, edits, p + 1)
  {
    PositionStart(source, edits, p);
    hide Simultaneous;
    assert !Covered(edits, p);
    assert Replacing(edits, p, true) == "" && Replacing(edits, p, false) == "";
    var rest := FromCharacter(source, edits, p);
    assert "" + rest == rest;
  }

  /** Up to the first span the source is copied. */
  lemma {:induction false} CopiedBefore(source: string, edits: set<Edit>, p: nat, m: nat)
    requires p <= m <= |source|
    requires forall e :: e in edits ==> m <= e.start
    ensures Simultaneous(source, edits, p) == source[p..m] + Simultaneous(source, edits, m)
    decreases m - p
  {
    hide *;
    var rest := Simultaneous(source, edits, m);
    if p == m {
      assert source[p..m] + rest == rest;
    } else {
      Untouched(source, edits, p);
      CopiedBefore(source, edits, p + 1, m);
      var middle := source[p + 1..m];
      assert source[p..m] == [source[p]] + middle;
      assert [source[p]] + (middle + rest) == ([source[p]] + middle) + rest;
    }
  }

  /** Past its span an edit no longer shows. */
  lemma {:induction false} ForgottenAfter(source: string, done: set<Edit>, e: Edit, p: nat)
    requires IsNext(source, done, e)
    requires e.start < p && e.end <= p <= |source|
    ensures Simultaneous(source, done + {e}, p) == Simultaneous(source, done, p)
    decreases |source| - p
  {
    SameReplacing(source, done, e, p, true);
    SameReplacing(source, done, e, p, false);
    assert Covered(done + {e}, p) == Covered(done, p);
    if p < |source| {
      ForgottenAfter(source, done, e, p + 1);
    }
  }

  lemma SameReplacing(source: string, done: set<Edit>, e: Edit, p: nat, empty: bool)
    requires AllApart(source, done + {e})
    requires !StartsAt(e, p, empty)
    ensures Replacing(done + {e}, p, empty) == Replacing(done, p, empty)
  {
    if d :| d in done && StartsAt(d, p, empty) {
      OnlyOne(source, done + {e}, d, p, empty);
      OnlyOne(source, done, d, p, empty);
    }
  }

  lemma OnlyOne(source: string, edits: set<Edit>, d: Edit, p: nat, empty: bool)
    requires AllApart(source, edits)
    requires d in edits && StartsAt(d, p, empty)
    ensures Replacing(edits, p, empty) == d.replacement
  {
    assert forall x :: x in edits && StartsAt(x, p, empty) ==> x == d;
  }

  /** Nothing is written inside the span of the next edit. */
  lemma {:induction false} SilentInside(source: string, done: set<Edit>, e: Edit, p: nat)
    requires IsNext(source, done, e)
    requires e.start < p <= e.end
    ensures Simultaneous(source, done + {e}, p) == Simultaneous(source, done, e.end)
    decreases e.end - p
  {
    if p == e.end {
      ForgottenAfter(source, done, e, p);
    } else {
      SilentInside(source, done, e, p + 1);
      assert Covered(done + {e}, p);
      assert forall x, empty :: x in done + {e} ==> !StartsAt(x, p, empty);
    }
  }

  lemma AtStart(source: string, done: set<Edit>, e: Edit)
    requires IsNext(source, done, e)
    ensures Simultaneous(source, done + {e}, e.start) == e.replacement + Simultaneous(source, done, e.end)
  {
    var p, all := e.start, done + {e};
    var empty := e.start == e.end;
    OnlyOne(source, all, e, p, empty);
    SameReplacing(source, done, e, p, !empty);
    PositionStart(source, all, p);
    PositionStart(source, done, p);
    hide Simultaneous;
    if empty {
      assert Replacing(done, p, true) == "" by {
        assert forall x :: x in done && StartsAt(x, p, true) ==> !Apart(x, e);
      }
      assert Covered(all, p) == Covered(done, p);
      if p < |source| { ForgottenAfter(source, done, e, p + 1); }
    } else {
      assert forall x :: x in done ==> !StartsAt(x, p, true);
      assert Covered(all, p);
      SilentInside(source, done, e, p + 1);
    }
  }

  /** One splice adds one edit to those already made. */
  lemma SpliceOne(source: string, done: set<Edit>, e: Edit)
    requires IsNext(source, done, e)
    ensures var c := Simultaneous(source, done, 0);
      && e.end <= |c|
      && Simultaneous(source, done + {e}, 0) == c[..e.start] + e.replacement + c[e.end..]
  {
    hide Simultaneous, AllApart;
    CopiedBefore(source, done, 0, e.end);
    CopiedBefore(source, done + {e}, 0, e.start);
    AtStart(source, done, e);
    var c := Simultaneous(source, done, 0);
    assert c[..e.start] == source[0..e.start];
    assert c[e.end..] == Simultaneous(source, done, e.end);
  }

  // ---------------------------------------------------------------- byte columns

  predicate Boundary(text: string, column: nat, k: nat) {
    k <= |text| && |Encode(text[..k])| == column
  }

  lemma EncodeFirst(text: string, k: nat)
    requires 0 < k <= |text|
    ensures Encode(text[..k]) == EncodeChar(text[0]) + Encode(text[1..][..k - 1])
    ensures Encode(text) == EncodeChar(text[0]) + Encode(text[1..])
  {
    assert text[..k][0] == text[0] && text[..k][1..] == text[1..][..k - 1];
  }

  /** Decoding the first `column` bytes of a line gives its first k characters, and fails inside a character. */
  lemma {:induction false} DecodePrefix(text: string, column: nat)
    requires column <= |Encode(text)|
    ensures var r := Decode(Encode(text)[..column]);
      && (r.Some? ==> r.value <= text && Boundary(text, column, |r.value|))
      && (r.None? ==> forall k: nat :: !Boundary(text, column, k))
  {
    if column == 0 {
      assert Boundary(text, 0, 0);
    } else {
      hide EncodeChar;
      var first, rest := EncodeChar(text[0]), Encode(text[1..]);
      if column < |first| {
        RejectsCut(text[0], column);
        assert Encode(text)[..column] == first[..column];
      } else {
        var bytes := first + rest[..column - |first|];
        assert Encode(text)[..column] == bytes;
        DecodesOwn(text[0], rest[..column - |first|]);
        assert bytes[|first|..] == rest[..column - |first|];
        DecodePrefix(text[1..], column - |first|);
        DecodedFirst(text[0], rest[..column - |first|]);
        var r := Decode(rest[..column - |first|]);
        hide Decode, DecodeChar, Encode, Boundary;
        if r.Some? { BoundaryAfter(text, column, r.value); }
      }
      hide *;
      forall k: nat | Boundary(text, column, k)
        ensures |first| <= column && k > 0 && Boundary(text[1..], column - |first|, k - 1)
      {
        BoundaryBefore(text, column, k);
      }
    }
  }

  lemma DecodedFirst(c: char, rest: seq<Byte>)
    ensures Decode(EncodeChar(c) + rest) ==
      if Decode(rest).Some? then Some([c] + Decode(rest).value) else None
  {
    DecodesOwn(c, rest);
    assert (EncodeChar(c) + rest)[|EncodeChar(c)|..] == rest;
    hide EncodeChar, DecodeChar, SequenceLength;
  }

  lemma BoundaryAfter(text: string, column: nat, after: string)
    requires text != "" && after <= text[1..] && |EncodeChar(text[0])| <= column
    requires Boundary(text[1..], column - |EncodeChar(text[0])|, |after|)
    ensures [text[0]] + after <= text && Boundary(text, column, |after| + 1)
  {
    hide EncodeChar;
    EncodeFirst(text, |after| + 1);
  }

  lemma BoundaryBefore(text: string, column: nat, k: nat)
    requires text != "" && column > 0 && Boundary(text, column, k)
    ensures |EncodeChar(text[0])| <= column && k > 0 && Boundary(text[1..], column - |EncodeChar(text[0])|, k - 1)
  {
    hide EncodeChar;
    assert k > 0;
    EncodeFirst(text, k);
  }

  // ---------------------------------------------------------------- lines

  function Joined(lines: seq<string>): string {
    if lines == [] then "" else Joined(lines[..|lines| - 1]) + lines[|lines| - 1]
  }

  /** What ends a line for the parser. */
  predicate ParserEnd(c: char) { c == '\n' || c == '\r' }

  /** What ends a line for `str.splitlines` besides. */
  predicate OtherEnd(c: char) {
    c in {'\U{000B}', '\U{000C}', '\U{001C}', '\U{001D}', '\U{001E}', '\U{0085}', '\U{2028}', '\U{2029}'}
  }

  predicate StringEnd(c: char) { ParserEnd(c) || OtherEnd(c) }

  /** The length of the first line with its end, a carriage return and line feed being one end. */
  function FirstLine(source: string, ends: char -> bool): (n: nat)
    requires source != ""
    ensures 1 <= n <= |source|
  {
    if ends(source[0]) then (if source[0] == '\r' && |source| > 1 && source[1] == '\n' then 2 else 1)
    else if |source| == 1 then 1
    else 1 + FirstLine(source[1..], ends)
  }

  /** The lines of the source, each with its end. */
  function SplitLines(source: string, ends: char -> bool): seq<string> {
    if source == "" then []
    else [source[..FirstLine(source, ends)]] + SplitLines(source[FirstLine(source, ends)..], ends)
  }

  /** `source.splitlines(keepends=True)`. */
  function StringLines(source: string): seq<string> { SplitLines(source, StringEnd) }

  /** The lines the positions of a syntax tree refer to. */
  function ParserLines(source: string): seq<string> { SplitLines(source, ParserEnd) }

  lemma {:induction false} JoinedCons(line: string, rest: seq<string>)
    ensures Joined([line] + rest) == line + Joined(rest)
  {
    if rest == [] {
      assert [line] + rest == [line] && [line][..0] == [];
    } else {
      var front, last := rest[..|rest| - 1], rest[|rest| - 1];
      JoinedCons(line, front);
      assert ([line] + rest)[..|rest|] == [line] + front;
    }
  }

  /** Splitting loses nothing. */
  lemma {:induction false} JoinedSplit(source: string, ends: char -> bool)
    ensures Joined(SplitLines(source, ends)) == source
  {
    if source != "" {
      var n := FirstLine(source, ends);
      JoinedSplit(source[n..], ends);
      JoinedCons(source[..n], SplitLines(source[n..], ends));
    }
  }

  /** Some separator the parser does not know stands before the last character. */
  predicate SplitByOther(source: string) {
    exists i :: 0 <= i < |source| - 1 && OtherEnd(source[i])
  }

  /** The first lines are the same unless the string's is shorter, ended by one of the other separators. */
  lemma {:induction false} FirstLines(source: string)
    requires source != ""
    ensures var mine, theirs := FirstLine(source, StringEnd), FirstLine(source, ParserEnd);
      && mine <= theirs && (mine < theirs <==> mine < |source| && OtherEnd(source[mine - 1]))
      && forall i :: 0 <= i < mine - 1 ==> !OtherEnd(source[i])
  {
    if |source| > 1 {
      FirstLines(source[1..]);
      var mine := FirstLine(source[1..], StringEnd);
      assert source[1..][mine - 1] == source[mine];
      assert forall i :: 0 < i < mine ==> source[i] == source[1..][i - 1];
    }
  }

  /** The two ways of splitting agree exactly when no other separator stands before the last character. */
  lemma {:induction false} LinesAgreeIff(source: string)
    ensures StringLines(source) == ParserLines(source) <==> !SplitByOther(source)
  {
    if source != "" {
      var mine, theirs := FirstLine(source, StringEnd), FirstLine(source, ParserEnd);
      FirstLines(source);
      LinesAgreeIff(source[mine..]);
      var a, b := StringLines(source), ParserLines(source);
      assert a[0] == source[..mine] && b[0] == source[..theirs];
      if mine < theirs {
        assert SplitByOther(source);
      } else {
        assert a[1..] == StringLines(source[mine..]) && b[1..] == ParserLines(source[mine..]);
        assert a == [a[0]] + a[1..] && b == [b[0]] + b[1..];
        RestSplit(source, mine);
      }
    }
  }

  lemma RestSplit(source: string, n: nat)
    requires 1 <= n <= |source| && (n < |source| ==> !OtherEnd(source[n - 1]))
    requires forall i :: 0 <= i < n - 1 ==> !OtherEnd(source[i])
    ensures SplitByOther(source) <==> SplitByOther(source[n..])
  {
    hide OtherEnd;
    if SplitByOther(source) {
      var i :| 0 <= i < |source| - 1 && OtherEnd(source[i]);
      assert source[n..][i - n] == source[i];
    }
    if SplitByOther(source[n..]) {
      var i :| 0 <= i < |source[n..]| - 1 && OtherEnd(source[n..][i]);
      assert source[n + i] == source[n..][i];
    }
  }

  /** A form feed before a line moves the line the parser means to the one before it. */
  lemma FormFeedMovesLines()
    ensures StringLines("\U{000C}x\ny\n") == ["\U{000C}", "x\n", "y\n"]
    ensures ParserLines("\U{000C}x\ny\n") == ["\U{000C}x\n", "y\n"]
  {
    var source := "\U{000C}x\ny\n";
    assert source[1..] == "x\ny\n" && "x\ny\n"[1..] == "\ny\n" && "x\ny\n"[2..] == "y\n" && "y\n"[1..] == "\n";
    assert source[3..] == "y\n" && "x\ny\n"[..2] == "x\n" && "y\n"[..2] == "y\n" && "y\n"[2..] == "";
    assert source[..1] == "\U{000C}" && source[..3] == "\U{000C}x\n";
    assert FirstLine("y\n", StringEnd) == 2 && FirstLine("y\n", ParserEnd) == 2;
    assert FirstLine("\ny\n", StringEnd) == 1 && FirstLine("\ny\n", ParserEnd) == 1;
    assert FirstLine("x\ny\n", StringEnd) == 2 && FirstLine("x\ny\n", ParserEnd) == 2;
    assert FirstLine(source, StringEnd) == 1 && FirstLine(source, ParserEnd) == 3;
    assert StringLines("y\n") == ["y\n"] && ParserLines("y\n") == ["y\n"];
    assert StringLines("x\ny\n") == ["x\n", "y\n"];
  }

  // ---------------------------------------------------------------- from byte columns to a span

  /** offsets[i] is where line i starts in the source; one more entry marks its end. */
  method LineOffsets(source: string) returns (offsets: seq<nat>)
    ensures |offsets| == |StringLines(source)| + 1 && offsets[|offsets| - 1] == |source|
    ensures forall i :: 0 <= i < |offsets| ==>
      offsets[i] == |Joined(StringLines(source)[..i])| && Joined(StringLines(source)[..i]) <= source
  {
    var lines := StringLines(source);
    offsets := [0];
    for n := 0 to |lines|
      invariant |offsets| == n + 1
      invariant forall i :: 0 <= i <= n ==> offsets[i] == |Joined(lines[..i])|
    {
      assert lines[..n + 1][..n] == lines[..n];
      offsets := offsets + [offsets[n] + |lines[n]|];
    }
    JoinedSplit(source, StringEnd);
    assert lines[..|lines|] == lines;
    hide StringLines, Joined;
    forall i | 0 <= i < |lines| ensures Joined(lines[..i]) <= source { JoinedPrefix(lines, i); }
  }

  datatype SpanError = NoSuchLine | InsideCharacter

  /** The bytes of the source before a line and byte column. */
  ghost function BytesBefore(lines: seq<string>, line: nat, column: nat): nat
    requires line < |lines|
  {
    |Encode(Joined(lines[..line]))| + column
  }

  ghost predicate OnBoundary(line: string, column: nat) {
    exists k: nat :: Boundary(line, column, k)
  }

  /** One end of `_node_span`: the character position of a one-based line number and a byte column of it. */
  method CharacterPosition(source: string, lineno: nat, column: nat) returns (r: Result<nat, SpanError>)
    requires 1 <= lineno
    ensures r == Failure(NoSuchLine) <==> lineno > |StringLines(source)|
    ensures r == Failure(InsideCharacter) ==>
      column <= |Encode(StringLines(source)[lineno - 1])| && !OnBoundary(StringLines(source)[lineno - 1], column)
    ensures r.Success? && column <= |Encode(StringLines(source)[lineno - 1])| ==>
      && OnBoundary(StringLines(source)[lineno - 1], column)
      && r.value <= |source|
      && |Encode(source[..r.value])| == BytesBefore(StringLines(source), lineno - 1, column)
  {
    hide *;
    var lines := StringLines(source);
    var offsets := LineOffsets(source);
    if lineno > |lines| {
      return Failure(NoSuchLine);
    }
    var line := lines[lineno - 1];
    var bytes := Encode(line);
    var cut := if column < |bytes| then column else |bytes|;
    var before := Decode(bytes[..cut]);
    DecodePrefix(line, cut);
    if before.None? {
      NoBoundary(line, column, cut);
      return Failure(InsideCharacter);
    }
    PositionFound(source, lineno - 1, column, before.value);
    return Success(offsets[lineno - 1] + |before.value|);
  }

  lemma NoBoundary(line: string, column: nat, cut: nat)
    requires cut == if column < |Encode(line)| then column else |Encode(line)|
    requires forall k: nat :: !Boundary(line, cut, k)
    ensures column <= |Encode(line)| && !OnBoundary(line, column)
  {
    WholeLine(line);
    hide Encode;
  }

  lemma PositionFound(source: string, n: nat, column: nat, before: string)
    requires n < |StringLines(source)| && before <= StringLines(source)[n]
    requires var line := StringLines(source)[n];
      Boundary(line, if column < |Encode(line)| then column else |Encode(line)|, |before|)
    ensures var lines := StringLines(source);
      var at := |Joined(lines[..n])| + |before|;
      column <= |Encode(lines[n])| ==>
        OnBoundary(lines[n], column) && at <= |source| && |Encode(source[..at])| == BytesBefore(lines, n, column)
  {
    hide StringLines, Joined, Encode;
    var lines := StringLines(source);
    assert Joined(lines) == source by { WholeSource(source); }
    var line := lines[n];
    if column <= |Encode(line)| {
      assert Boundary(line, column, |before|);
      assert |Encode(line[..|before|])| == column;
      hide *;
      PositionInSource(lines, n, before);
    }
  }

  lemma WholeSource(source: string)
    ensures Joined(StringLines(source)) == source
  {
    JoinedSplit(source, StringEnd);
  }

  lemma PositionInSource(lines: seq<string>, line: nat, before: string)
    requires line < |lines| && before <= lines[line]
    ensures var at := |Joined(lines[..line])| + |before|;
      && at <= |Joined(lines)|
      && |Encode(Joined(lines)[..at])| == |Encode(Joined(lines[..line]))| + |Encode(lines[line][..|before|])|
  {
    hide Encode;
    JoinedPrefix(lines, line);
    var prefix := Joined(lines[..line]);
    hide Joined;
    assert lines[line][..|before|] == before;
    assert Joined(lines)[..|prefix| + |before|] == prefix + before;
    EncodeConcat(prefix, before);
  }

  /** Characters `start` to `end` of the source are bytes `from` to `to` of its encoding. */
  ghost predicate SameSpan(source: string, start: nat, end: nat, from: nat, to: nat) {
    && start <= end <= |source| && from <= to <= |Encode(source)|
    && Encode(source[start..end]) == Encode(source)[from..to]
  }

  /** Both ends are lines of the source. */
  predicate LinesExist(lines: seq<string>, lineno: nat, endLineno: nat) {
    1 <= lineno <= |lines| && 1 <= endLineno <= |lines|
  }

  /** Both ends are positions inside their lines. */
  predicate ColumnsExist(lines: seq<string>, lineno: nat, column: nat, endLineno: nat, endColumn: nat) {
    && LinesExist(lines, lineno, endLineno)
    && column <= |Encode(lines[lineno - 1])| && endColumn <= |Encode(lines[endLineno - 1])|
  }

  /** The characters found are the text between the two positions of these lines. */
  ghost predicate SpanFound(source: string, lines: seq<string>, lineno: nat, column: nat, endLineno: nat,
                            endColumn: nat,
                            span: (nat, nat))
    requires LinesExist(lines, lineno, endLineno)
  {
    var from, to := BytesBefore(lines, lineno - 1, column), BytesBefore(lines, endLineno - 1, endColumn);
    && (from <= to ==> SameSpan(source, span.0, span.1, from, to))
    && (to < from ==> span.1 < span.0)
  }

  /** `_node_span`: a span given by lines and byte columns, as character positions of the same text. */
  method NodeSpan(source: string, lineno: nat, column: nat, endLineno: nat, endColumn: nat)
    returns (r: Result<(nat, nat), SpanError>)
    requires 1 <= lineno && 1 <= endLineno
    ensures var lines := StringLines(source);
      && (r == Failure(NoSuchLine) ==> !LinesExist(lines, lineno, endLineno))
      && (r == Failure(InsideCharacter) ==>
            || (lineno <= |lines| && !OnBoundary(lines[lineno - 1], column))
            || (endLineno <= |lines| && !OnBoundary(lines[endLineno - 1], endColumn)))
      && (r.Success? ==> LinesExist(lines, lineno, endLineno))
      && (r.Success? && ColumnsExist(lines, lineno, column, endLineno, endColumn) ==>
            && OnBoundary(lines[lineno - 1], column) && OnBoundary(lines[endLineno - 1], endColumn)
            && SpanFound(source, lines, lineno, column, endLineno, endColumn, r.value))
    ensures
      !SplitByOther(source) && r.Success? && ColumnsExist(ParserLines(source), lineno, column, endLineno, endColumn) ==>
      SpanFound(source, ParserLines(source), lineno, column, endLineno, endColumn, r.value)
  {
    LinesAgreeIff(source);
    hide ParserLines, SplitByOther;
    var start := CharacterPosition(source, lineno, column);
    if start.Failure? {
      return Failure(start.error);
    }
    var end := CharacterPosition(source, endLineno, endColumn);
    if end.Failure? {
      return Failure(end.error);
    }
    if ColumnsExist(StringLines(source), lineno, column, endLineno, endColumn) {
      hide Encode, StringLines, SameSpan, BytesBefore;
      SpanOfBytes(source, start.value, end.value);
    }
    return Success((start.value, end.value));
  }

  /** The encoding maps spans of characters to spans of bytes and keeps their order. */
  lemma SpanOfBytes(source: string, start: nat, end: nat)
    requires start <= |source| && end <= |source|
    ensures var from, to := |Encode(source[..start])|, |Encode(source[..end])|;
      && (from <= to ==> SameSpan(source, start, end, from, to))
      && (to < from ==> end < start)
  {
    if start <= end {
      var a, b, c := source[..start], source[start..end], source[end..];
      assert source[..end] == a + b && source == a + b + c;
      EncodeConcat(a, b);
      EncodeConcat(a + b, c);
      hide Encode;
      assert Encode(source) == Encode(a) + Encode(b) + Encode(c);
    } else {
      assert source[..start] == source[..end] + source[end..start];
      EncodeConcat(source[..end], source[end..start]);
    }
  }

  lemma WholeLine(line: string)
    ensures Boundary(line, |Encode(line)|, |line|)
  {
    assert line[..|line|] == line;
  }

  lemma {:induction false} JoinedPrefix(lines: seq<string>, line: nat)
    requires line < |lines|
    ensures Joined(lines[..line]) + lines[line] <= Joined(lines)
    decreases |lines|
  {
    if line == |lines| - 1 {
    } else {
      var front := lines[..|lines| - 1];
      JoinedPrefix(front, line);
      assert front[..line] == lines[..line];
    }
  }
}
