/** The indentation-stack parser of the configuration file. */
module ConfigParser {
  import opened Prelude

  // ---------------------------------------------------------------- dictionaries in insertion order

  datatype Dict<V> = End | Entry(key: string, value: V, rest: Dict<V>)

  predicate HasKey<V>(d: Dict<V>, key: string) {
    d.Entry? && (d.key == key || HasKey(d.rest, key))
  }

  predicate UniqueKeys<V>(d: Dict<V>) {
    d.Entry? ==> !HasKey(d.rest, d.key) && UniqueKeys(d.rest)
  }

  function Lookup<V>(d: Dict<V>, key: string): Option<V> {
    if d.End? then None else if d.key == key then Some(d.value) else Lookup(d.rest, key)
  }

  /** `d[key] = value`. */
  function SetKey<V>(d: Dict<V>, key: string, value: V): Dict<V> {
    if d.End? then Entry(key, value, End)
    else if d.key == key then Entry(key, value, d.rest)
    else Entry(d.key, d.value, SetKey(d.rest, key, value))
  }

  function Append<V>(a: Dict<V>, b: Dict<V>): Dict<V> {
    if a.End? then b else Entry(a.key, a.value, Append(a.rest, b))
  }

  datatype Value = Text(text: string) | Mapping(entries: Dict<Value>)

  type Config = Dict<Value>

  /** The mapping found by following keys from the root. */
  function Get(root: Config, path: seq<string>): Option<Config>
    decreases |path|
  {
    if path == [] then Some(root)
    else
      var child := Lookup(root, path[0]);
      if child.Some? && child.value.Mapping? then Get(child.value.entries, path[1..]) else None
  }

  /** The configuration with the mapping at the path replaced. */
  function Replace(root: Config, path: seq<string>, mapping: Config): Config
    requires Get(root, path).Some?
    decreases |path|
  {
    if path == [] then mapping
    else SetKey(root, path[0], Mapping(Replace(Lookup(root, path[0]).value.entries, path[1..], mapping)))
  }

  // ---------------------------------------------------------------- one line

  predicate IsSpace(c: char) {
    var n := c as int;
    || 9 <= n <= 13 || 28 <= n <= 32 || n == 0x85 || n == 0xA0 || n == 0x1680 || 0x2000 <= n <= 0x200A
    || n == 0x2028 || n == 0x2029 || n == 0x202F || n == 0x205F || n == 0x3000
  }

  function StripLeft(s: string): string {
    if s != "" && IsSpace(s[0]) then StripLeft(s[1..]) else s
  }

  function StripRight(s: string): (r: string)
    ensures r <= s
  {
    if s != "" && IsSpace(s[|s| - 1]) then StripRight(s[..|s| - 1]) else s
  }

  function Strip(s: string): string { StripRight(StripLeft(s)) }

  /** Where the comment starts; a quote character closes its own kind and otherwise replaces the open one. */
  function CommentStart(line: string, i: nat, quote: Option<char>): (r: nat)
    requires i <= |line|
    ensures i <= r <= |line|
    decreases |line| - i
  {
    if i == |line| then i
    else
      var c := line[i];
      var q := if (c == '\'' || c == '"') && (i == 0 || line[i - 1] != '\\') then
                 (if quote == Some(c) then None else Some(c))
               else quote;
      if c == '#' && q.None? then i else CommentStart(line, i + 1, q)
  }

  function LeadingSpaces(s: string): (n: nat)
    ensures n <= |s|
    ensures forall i :: 0 <= i < n ==> s[i] == ' '
    ensures n < |s| ==> s[n] != ' '
  {
    if s != "" && s[0] == ' ' then 1 + LeadingSpaces(s[1..]) else 0
  }

  function FirstColon(s: string): (n: nat)
    ensures n <= |s|
    ensures n < |s| ==> s[n] == ':'
    ensures forall i :: 0 <= i < n ==> s[i] != ':'
  {
    if s == "" || s[0] == ':' then 0 else 1 + FirstColon(s[1..])
  }

  datatype ConfigError = TabIndentation | NoColon | EmptyKey | InvalidInlineList

  datatype Line =
    | Blank
    | Bad(error: ConfigError)
    | Section(indent: nat, key: string)
    | Scalar(indent: nat, key: string, text: string)
  {
    predicate IsEntry() { Section? || Scalar? }
  }

  /** One pass of the loop up to the stack; `readable` says which scalars `_parse_scalar` accepts. */
  function ReadLine(raw: string, readable: string -> bool): Line {
    var line := StripRight(raw[..CommentStart(raw, 0, None)]);
    if Strip(line) == "" then Blank
    else
      var indent := LeadingSpaces(line);
      if '\t' in raw[..indent] then Bad(TabIndentation) else ReadEntry(indent, Strip(line), readable)
  }

  function ReadEntry(indent: nat, stripped: string, readable: string -> bool): Line {
    var colon := FirstColon(stripped);
    if colon == |stripped| then Bad(NoColon)
    else
      var key, value := Strip(stripped[..colon]), Strip(stripped[colon + 1..]);
      if key == "" then Bad(EmptyKey)
      else if value == "" then Section(indent, key)
      else if !readable(value) then Bad(InvalidInlineList)
      else Scalar(indent, key, value)
  }

  function ReadLines(raws: seq<string>, readable: string -> bool): (lines: seq<Line>)
    ensures |lines| == |raws|
    ensures forall i :: 0 <= i < |raws| ==> lines[i] == ReadLine(raws[i], readable)
  {
    if raws == [] then [] else [ReadLine(raws[0], readable)] + ReadLines(raws[1..], readable)
  }

  /**
   * The tab check never fires: it looks at the leading spaces only. A tab ends the indentation, so what a tab
   * indents is read at the column before the tab.
   */
  lemma TabsPassUnnoticed(raw: string, readable: string -> bool)
    ensures ReadLine(raw, readable) != Bad(TabIndentation)
    ensures var r := ReadLine(raw, readable);
      r.IsEntry() ==> forall n :: 0 <= n < |raw| && raw[n] == '\t' ==> r.indent <= n
  {
    var line := StripRight(raw[..CommentStart(raw, 0, None)]);
    var indent := LeadingSpaces(line);
    assert forall i :: 0 <= i < indent ==> raw[i] == line[i];
  }

  // ---------------------------------------------------------------- which section a line belongs to

  /** A section is open before line i when every later line so far is indented deeper. */
  predicate IsOpen(lines: seq<Line>, j: nat, i: nat) {
    && j < i <= |lines| && lines[j].Section?
    && forall k :: j < k < i && lines[k].IsEntry() ==> lines[k].indent > lines[j].indent
  }

  /** Line i lies inside the section on line j. */
  predicate Encloses(lines: seq<Line>, j: nat, i: nat) {
    && i < |lines| && lines[i].IsEntry()
    && IsOpen(lines, j, i) && lines[j].indent < lines[i].indent
  }

  /** The parent of line i: the latest section it lies inside. */
  predicate IsParent(lines: seq<Line>, j: nat, i: nat) {
    Encloses(lines, j, i) && forall k :: j < k < i ==> !Encloses(lines, k, i)
  }

  /** An entry of the stack above the root: a section's indent and key, and the line it stands on. */
  datatype Frame = Frame(indent: nat, key: string, line: nat)

  /** The stack, innermost frame last; everything assigned so far; and the number of lines read. */
  datatype State = State(frames: seq<Frame>, root: Config, count: nat)

  function Pop(frames: seq<Frame>, indent: nat): (r: seq<Frame>)
    ensures r <= frames
    ensures r != [] ==> r[|r| - 1].indent < indent
  {
    if frames != [] && indent <= frames[|frames| - 1].indent then Pop(frames[..|frames| - 1], indent) else frames
  }

  function Keys(frames: seq<Frame>): (keys: seq<string>)
    ensures |keys| == |frames|
    ensures forall i :: 0 <= i < |keys| ==> keys[i] == frames[i].key
  {
    seq(|frames|, i requires 0 <= i < |frames| => frames[i].key)
  }

  /** Assign one key of the mapping at the path. */
  function Assign(root: Config, path: seq<string>, key: string, value: Value): Config {
    var parent := Get(root, path);
    if parent.Some? then Replace(root, path, SetKey(parent.value, key, value)) else root
  }

  function Step(s: State, line: Line): State {
    var frames := if line.IsEntry() then Pop(s.frames, line.indent) else s.frames;
    match line
    case Section(indent, key) =>
      State(frames + [Frame(indent, key, s.count)], Assign(s.root, Keys(frames), key, Mapping(End)), s.count + 1)
    case Scalar(_, key, text) => State(frames, Assign(s.root, Keys(frames), key, Text(text)), s.count + 1)
    case _ => s.(count := s.count + 1)
  }

  /** The state after the first n lines. */
  function Run(s: State, lines: seq<Line>, n: nat): State
    requires n <= |lines|
  {
    if n == 0 then s else Step(Run(s, lines, n - 1), lines[n - 1])
  }

  const START := State([], End, 0)

  /** What the lines mean: assignments in order, each under the frames open at that line. */
  function Parsed(lines: seq<Line>): Config { Run(START, lines, |lines|).root }

  // ---------------------------------------------------------------- the stack finds the parents

  /** The frames that stay when line i is read: those of the sections it lies inside. */
  function Enclosing(lines: seq<Line>, i: nat): seq<Frame>
    requires i < |lines| && lines[i].IsEntry()
  {
    Pop(Run(START, lines, i).frames, lines[i].indent)
  }

  /** Where the assignment of line i goes. */
  function Address(lines: seq<Line>, i: nat): seq<string>
    requires i < |lines| && lines[i].IsEntry()
  {
    Keys(Enclosing(lines, i)) + [lines[i].key]
  }

  predicate Increasing(frames: seq<Frame>) {
    forall k, l :: 0 <= k < l < |frames| ==>
      frames[k].indent < frames[l].indent && frames[k].line < frames[l].line
  }

  predicate HasLine(frames: seq<Frame>, j: nat) {
    exists k :: 0 <= k < |frames| && frames[k].line == j
  }

  /** Frame k is a section among the first n lines and sits on what encloses that section. */
  predicate Stands(lines: seq<Line>, n: nat, frames: seq<Frame>, k: nat)
    requires k < |frames|
  {
    var f := frames[k];
    f.line < n <= |lines| && lines[f.line] == Section(f.indent, f.key) && frames[..k] == Enclosing(lines, f.line)
  }

  predicate AllStand(lines: seq<Line>, n: nat, frames: seq<Frame>) {
    forall k :: 0 <= k < |frames| ==> Stands(lines, n, frames, k)
  }

  /** The stack is strictly increasing and holds exactly the open sections, each on what encloses it. */
  ghost predicate StackOf(lines: seq<Line>, n: nat, frames: seq<Frame>) {
    && Increasing(frames)
    && AllStand(lines, n, frames)
    && forall j: nat :: IsOpen(lines, j, n) <==> HasLine(frames, j)
  }

  /** Reading the line left exactly the frames it is deeper than. */
  predicate KeptBy(line: Line, before: seq<Frame>, kept: seq<Frame>) {
    && kept <= before
    && forall k :: 0 <= k < |before| ==> (k < |kept| <==> line.IsEntry() ==> before[k].indent < line.indent)
  }

  lemma {:induction false} PopKeeps(frames: seq<Frame>, line: Line)
    requires line.IsEntry() && Increasing(frames)
    ensures KeptBy(line, frames, Pop(frames, line.indent))
  {
    if frames != [] && line.indent <= frames[|frames| - 1].indent {
      PopKeeps(frames[..|frames| - 1], line);
    }
  }

  lemma OpenStep(lines: seq<Line>, j: nat, n: nat)
    requires n < |lines|
    ensures IsOpen(lines, j, n + 1) <==>
      || (j == n && lines[n].Section?)
      || (IsOpen(lines, j, n) && (lines[n].IsEntry() ==> lines[n].indent > lines[j].indent))
  {
  }

  lemma OpenIsSection(lines: seq<Line>, j: nat, n: nat)
    requires IsOpen(lines, j, n)
    ensures j < n <= |lines| && lines[j].Section?
  {
  }

  /** A frame of the old stack is kept exactly when its section is still open after the line. */
  lemma KeptIsOpen(lines: seq<Line>, n: nat, before: seq<Frame>, kept: seq<Frame>, j: nat)
    requires n < |lines| && StackOf(lines, n, before) && KeptBy(lines[n], before, kept)
    ensures HasLine(kept, j) <==> IsOpen(lines, j, n) && (lines[n].IsEntry() ==> lines[n].indent > lines[j].indent)
  {
    hide IsOpen;
    if HasLine(before, j) {
      var k :| 0 <= k < |before| && before[k].line == j;
      assert Stands(lines, n, before, k);
      if k < |kept| { assert kept[k].line == j; }
    }
    if IsOpen(lines, j, n) { OpenIsSection(lines, j, n); }
  }

  lemma KeptStand(lines: seq<Line>, n: nat, before: seq<Frame>, kept: seq<Frame>)
    requires n < |lines| && Increasing(before) && AllStand(lines, n, before) && kept <= before
    ensures Increasing(kept) && AllStand(lines, n + 1, kept)
  {
    hide Enclosing;
    var m := n + 1;
    forall k | 0 <= k < |kept| ensures Stands(lines, m, kept, k) {
      assert Stands(lines, n, before, k) && kept[..k] == before[..k];
    }
  }

  lemma PushedStand(lines: seq<Line>, n: nat, kept: seq<Frame>)
    requires n < |lines| && lines[n].Section?
    requires Increasing(kept) && AllStand(lines, n + 1, kept) && kept == Enclosing(lines, n)
    requires forall k :: 0 <= k < |kept| ==> kept[k].indent < lines[n].indent && kept[k].line < n
    ensures var frames := kept + [Frame(lines[n].indent, lines[n].key, n)];
      Increasing(frames) && AllStand(lines, n + 1, frames)
  {
    hide Enclosing;
    var frames := kept + [Frame(lines[n].indent, lines[n].key, n)];
    var m := n + 1;
    forall k | 0 <= k < |frames| ensures Stands(lines, m, frames, k) {
      if k < |kept| {
        assert Stands(lines, m, kept, k) && frames[..k] == kept[..k];
      } else {
        assert frames[..k] == kept;
      }
    }
  }

  lemma HasLinePush(kept: seq<Frame>, f: Frame, j: nat)
    ensures HasLine(kept + [f], j) <==> j == f.line || HasLine(kept, j)
  {
    if HasLine(kept, j) {
      var k :| 0 <= k < |kept| && kept[k].line == j;
      assert (kept + [f])[k].line == j;
    }
    assert (kept + [f])[|kept|] == f;
  }

  lemma StackStep(lines: seq<Line>, n: nat, before: seq<Frame>, kept: seq<Frame>, after: seq<Frame>)
    requires n < |lines|
    requires StackOf(lines, n, before) && KeptBy(lines[n], before, kept)
    requires lines[n].IsEntry() ==> kept == Enclosing(lines, n)
    requires after == kept + (if lines[n].Section? then [Frame(lines[n].indent, lines[n].key, n)] else [])
    ensures StackOf(lines, n + 1, after)
  {
    KeptStand(lines, n, before, kept);
    if lines[n].Section? {
      assert forall k :: 0 <= k < |kept| ==> kept[k] == before[k] && Stands(lines, n, before, k);
      PushedStand(lines, n, kept);
    } else {
      assert after == kept;
    }
    forall j: nat ensures IsOpen(lines, j, n + 1) <==> HasLine(after, j) {
      KeptIsOpen(lines, n, before, kept, j);
      OpenStep(lines, j, n);
      if lines[n].Section? {
        HasLinePush(kept, Frame(lines[n].indent, lines[n].key, n), j);
      }
      hide *;
    }
  }

  lemma {:induction false} StackInvariant(lines: seq<Line>, n: nat)
    requires n <= |lines|
    ensures Run(START, lines, n).count == n
    ensures StackOf(lines, n, Run(START, lines, n).frames)
  {
    hide *;
    if n == 0 {
      NothingOpen(lines);
    } else {
      StackInvariant(lines, n - 1);
      RunStep(lines, n - 1);
      StackAfterStep(lines, n - 1, Run(START, lines, n - 1));
    }
  }

  lemma NothingOpen(lines: seq<Line>)
    ensures Run(START, lines, 0) == START && START.count == 0
    ensures StackOf(lines, 0, START.frames)
  {
    assert forall j: nat :: !IsOpen(lines, j, 0);
  }

  lemma StackAfterStep(lines: seq<Line>, n: nat, s: State)
    requires n < |lines| && s.count == n && StackOf(lines, n, s.frames)
    requires lines[n].IsEntry() ==> Pop(s.frames, lines[n].indent) == Enclosing(lines, n)
    ensures StackOf(lines, n + 1, Step(s, lines[n]).frames)
    ensures Step(s, lines[n]).count == n + 1
  {
    hide StackOf, KeptBy, Step, Pop, Enclosing;
    var kept := if lines[n].IsEntry() then Pop(s.frames, lines[n].indent) else s.frames;
    StepFrames(s, lines[n]);
    KeptFrames(lines, n, s.frames);
    StackStep(lines, n, s.frames, kept, Step(s, lines[n]).frames);
  }

  lemma RunStep(lines: seq<Line>, n: nat)
    requires n < |lines|
    ensures Run(START, lines, n + 1) == Step(Run(START, lines, n), lines[n])
    ensures lines[n].IsEntry() ==> Pop(Run(START, lines, n).frames, lines[n].indent) == Enclosing(lines, n)
  {
  }

  lemma KeptFrames(lines: seq<Line>, n: nat, frames: seq<Frame>)
    requires n < |lines| && StackOf(lines, n, frames)
    ensures KeptBy(lines[n], frames, if lines[n].IsEntry() then Pop(frames, lines[n].indent) else frames)
  {
    hide AllStand, HasLine, IsOpen;
    if lines[n].IsEntry() { PopKeeps(frames, lines[n]); }
  }

  lemma StepFrames(s: State, line: Line)
    ensures var kept := if line.IsEntry() then Pop(s.frames, line.indent) else s.frames;
      && Step(s, line).frames == kept + (if line.Section? then [Frame(line.indent, line.key, s.count)] else [])
      && Step(s, line).count == s.count + 1
  {
  }

  lemma EnclosingMeaning(lines: seq<Line>, i: nat)
    requires i < |lines| && lines[i].IsEntry()
    ensures var kept := Enclosing(lines, i);
      && Increasing(kept) && AllStand(lines, i + 1, kept)
      && forall j: nat :: Encloses(lines, j, i) <==> HasLine(kept, j)
  {
    StackInvariant(lines, i);
    var frames := Run(START, lines, i).frames;
    assert Increasing(frames);
    PopKeeps(frames, lines[i]);
    KeptStand(lines, i, frames, Enclosing(lines, i));
    forall j: nat ensures Encloses(lines, j, i) <==> HasLine(Enclosing(lines, i), j) {
      KeptIsOpen(lines, i, frames, Enclosing(lines, i), j);
      hide IsOpen, StackOf, KeptBy, HasLine, Enclosing;
    }
  }

  /**
   * Every line is assigned under its parent: the latest earlier section with a smaller indent and nothing at or
   * left of it in between, and that section's own address is the rest of the path.
   */
  lemma ParentIsInnermost(lines: seq<Line>, i: nat)
    requires i < |lines| && lines[i].IsEntry()
    ensures var kept := Enclosing(lines, i);
      && (kept == [] ==> Address(lines, i) == [lines[i].key] && forall j: nat :: !IsParent(lines, j, i))
      && (kept != [] ==>
            var parent := kept[|kept| - 1].line;
            && IsParent(lines, parent, i)
            && Address(lines, i) == Address(lines, parent) + [lines[i].key])
  {
    EnclosingMeaning(lines, i);
    var kept := Enclosing(lines, i);
    hide Enclosing, Run, IsOpen, Encloses;
    if kept == [] {
      assert forall j: nat :: !HasLine(kept, j);
    } else {
      var last := |kept| - 1;
      var parent := kept[last].line;
      assert HasLine(kept, parent) && Stands(lines, i + 1, kept, last);
      forall k: nat | parent < k < i ensures !HasLine(kept, k) {
      }
      assert Keys(kept) == Keys(kept[..last]) + [kept[last].key];
    }
  }

  // ---------------------------------------------------------------- dictionaries as shared objects

  /** What a dictionary object holds: a scalar, or a reference to another dictionary, by number. */
  datatype Slot = Str(text: string) | Ref(id: nat)

  type Row = Dict<Slot>

  /** The row's references point to objects newer than id and below size. */
  predicate PointsInto(row: Row, id: nat, size: nat) {
    row.Entry? ==> (row.value.Ref? ==> id < row.value.id < size) && PointsInto(row.rest, id, size)
  }

  ghost predicate Forward(nodes: seq<Row>) {
    forall x: nat :: x < |nodes| ==> PointsInto(nodes[x], x, |nodes|) && UniqueKeys(nodes[x])
  }

  /** The configuration an object stands for, references followed. */
  ghost function TreeOf(nodes: seq<Row>, id: nat): Config
    requires Forward(nodes) && id < |nodes|
    decreases |nodes| - id, 1, nodes[id]
  {
    RowTree(nodes, id, nodes[id])
  }

  ghost function RowTree(nodes: seq<Row>, id: nat, row: Row): Config
    requires Forward(nodes) && id < |nodes| && PointsInto(row, id, |nodes|)
    decreases |nodes| - id, 0, row
  {
    if row.End? then End
    else
      var value := match row.value
        case Str(text) => Text(text)
        case Ref(r) => Mapping(TreeOf(nodes, r));
      Entry(row.key, value, RowTree(nodes, id, row.rest))
  }

  /** Objects from c up to hi are the same in both stores and refer to nothing at or beyond hi. */
  ghost predicate SameBetween(a: seq<Row>, b: seq<Row>, c: nat, hi: nat) {
    && hi <= |a| && hi <= |b|
    && forall x: nat :: c <= x < hi ==> a[x] == b[x] && PointsInto(a[x], x, hi)
  }

  lemma {:induction false} SameTree(a: seq<Row>, b: seq<Row>, c: nat, hi: nat)
    requires Forward(a) && Forward(b) && SameBetween(a, b, c, hi) && c < hi
    ensures TreeOf(a, c) == TreeOf(b, c)
    decreases hi - c, 1, a[c]
  {
    assert a[c] == b[c] && PointsInto(a[c], c, hi);
    SameRowTree(a, b, c, hi, a[c]);
  }

  lemma {:induction false} SameRowTree(a: seq<Row>, b: seq<Row>, c: nat, hi: nat, row: Row)
    requires Forward(a) && Forward(b) && SameBetween(a, b, c + 1, hi) && c < hi
    requires PointsInto(row, c, hi) && PointsInto(row, c, |a|) && PointsInto(row, c, |b|)
    ensures RowTree(a, c, row) == RowTree(b, c, row)
    decreases hi - c, 0, row
  {
    if row.Entry? {
      SameRowTree(a, b, c, hi, row.rest);
      if row.value.Ref? {
        SameTree(a, b, row.value.id, hi);
      }
    }
  }

  /** The stack as object numbers, root first: each frame's object is entered under its key in the one below. */
  ghost predicate Spine(nodes: seq<Row>, ids: seq<nat>, keys: seq<string>) {
    && |ids| == |keys| + 1 && ids[0] == 0
    && (forall k :: 0 <= k < |ids| ==> ids[k] < |nodes|)
    && (forall k :: 0 <= k < |keys| ==> Link(nodes, ids, keys, k))
  }

  /** Only the frame's own entry refers to its object or anything newer from below. */
  ghost predicate Link(nodes: seq<Row>, ids: seq<nat>, keys: seq<string>, k: nat)
    requires k < |keys| && |ids| == |keys| + 1
    requires forall i :: 0 <= i < |ids| ==> ids[i] < |nodes|
  {
    && ids[k] < ids[k + 1]
    && Lookup(nodes[ids[k]], keys[k]) == Some(Ref(ids[k + 1]))
    && (forall x: nat :: x < ids[k + 1] && x != ids[k] ==> PointsInto(nodes[x], x, ids[k + 1]) )
    && OnlyEntry(nodes[ids[k]], keys[k], ids[k + 1])
  }

  /** No entry but the one under the key refers to the object or anything newer. */
  predicate OnlyEntry(row: Row, key: string, id: nat) {
    row.Entry? ==>
      (row.key == key || row.value.Str? || row.value.id < id) && OnlyEntry(row.rest, key, id)
  }

  /** Only objects from the top of the stack on may differ, and they may have grown. */
  predicate DiffersFromTop(a: seq<Row>, b: seq<Row>, top: nat) {
    |a| <= |b| && top < |a| && forall x: nat :: x < top ==> a[x] == b[x]
  }

  /** Changing the top of the stack replaces the mapping found by following the stack's keys. */
  lemma {:induction false} SpineUpdate(a: seq<Row>, b: seq<Row>, ids: seq<nat>, keys: seq<string>, k: nat)
    requires Forward(a) && Forward(b) && Spine(a, ids, keys) && k < |ids|
    requires DiffersFromTop(a, b, ids[|keys|])
    ensures ids[k] < |b| && ids[|keys|] < |b|
    ensures Get(TreeOf(a, ids[k]), keys[k..]) == Some(TreeOf(a, ids[|keys|]))
    ensures TreeOf(b, ids[k]) == Replace(TreeOf(a, ids[k]), keys[k..], TreeOf(b, ids[|keys|]))
    decreases |ids| - k
  {
    if k < |keys| {
      SpineIncreasing(a, ids, keys, k);
      SpineUpdate(a, b, ids, keys, k + 1);
      assert Link(a, ids, keys, k);
      assert keys[k..][0] == keys[k] && keys[k..][1..] == keys[k + 1..];
      LookupHas(a[ids[k]], keys[k]);
      SpineRow(a, b, ids[k], ids[k + 1], keys[k], a[ids[k]]);
    }
  }

  lemma {:induction false} SpineIncreasing(nodes: seq<Row>, ids: seq<nat>, keys: seq<string>, k: nat)
    requires Spine(nodes, ids, keys) && k < |keys|
    ensures ids[k] < ids[|keys|] && ids[k + 1] <= ids[|keys|]
    decreases |keys| - k
  {
    assert Link(nodes, ids, keys, k);
    if k + 1 < |keys| { SpineIncreasing(nodes, ids, keys, k + 1); }
  }

  lemma {:induction false} LookupHas<V>(d: Dict<V>, key: string)
    ensures HasKey(d, key) <==> Lookup(d, key).Some?
  {
    if d.Entry? { LookupHas(d.rest, key); }
  }

  /** In a row of the spine the entry of the next frame changes and every other entry keeps its tree. */
  lemma {:induction false} SpineRow(a: seq<Row>, b: seq<Row>, id: nat, next: nat, key: string, row: Row)
    requires Forward(a) && Forward(b) && DiffersFromTop(a, b, next)
    requires id < next && PointsInto(row, id, |a|) && UniqueKeys(row) && OnlyEntry(row, key, next)
    requires forall x: nat :: x < next && x != id ==> PointsInto(a[x], x, next)
    requires Lookup(row, key).Some? ==> Lookup(row, key) == Some(Ref(next))
    ensures PointsInto(row, id, |b|)
    ensures RowTree(b, id, row) ==
      if HasKey(row, key) then SetKey(RowTree(a, id, row), key, Mapping(TreeOf(b, next))) else RowTree(a, id, row)
    ensures HasKey(row, key) ==> Lookup(RowTree(a, id, row), key) == Some(Mapping(TreeOf(a, next)))
  {
    if row.Entry? {
      LookupHas(row.rest, key);
      SpineRow(a, b, id, next, key, row.rest);
      if row.key != key && row.value.Ref? {
        SameTree(a, b, row.value.id, next);
      }
    }
  }

  // ---------------------------------------------------------------- the parser

  /** What a slot stands for. */
  ghost function SlotValue(nodes: seq<Row>, slot: Slot): Value
    requires Forward(nodes) && (slot.Ref? ==> slot.id < |nodes|)
  {
    match slot
    case Str(text) => Text(text)
    case Ref(r) => Mapping(TreeOf(nodes, r))
  }

  /** The store after `parent[key] = slot`, where a reference is to a new empty dictionary. */
  function Entered(nodes: seq<Row>, top: nat, key: string, slot: Slot): seq<Row>
    requires top < |nodes|
  {
    nodes[top := SetKey(nodes[top], key, slot)] + (if slot.Ref? then [End] else [])
  }

  lemma {:induction false} SetKeyKeeps(row: Row, key: string, slot: Slot, id: nat, size: nat)
    requires UniqueKeys(row) && PointsInto(row, id, size) && (slot.Ref? ==> id < slot.id <= size)
    ensures var r := SetKey(row, key, slot);
      && UniqueKeys(r) && Lookup(r, key) == Some(slot)
      && (forall k :: HasKey(r, k) <==> k == key || HasKey(row, k))
      && PointsInto(r, id, if slot.Ref? then size + 1 else size)
      && OnlyEntry(r, key, size)
  {
    if row.Entry? { SetKeyKeeps(row.rest, key, slot, id, size); }
    if row.Entry? && row.key == key { OldEntries(row.rest, key, id, size); }
  }

  lemma {:induction false} OldEntries(row: Row, key: string, id: nat, size: nat)
    requires PointsInto(row, id, size)
    ensures OnlyEntry(row, key, size) && PointsInto(row, id, size + 1)
  {
    if row.Entry? { OldEntries(row.rest, key, id, size); }
  }

  lemma EnteredForward(nodes: seq<Row>, top: nat, key: string, slot: Slot)
    requires Forward(nodes) && top < |nodes| && (slot.Ref? ==> slot.id == |nodes|)
    ensures Forward(Entered(nodes, top, key, slot))
  {
    var after := Entered(nodes, top, key, slot);
    SetKeyKeeps(nodes[top], key, slot, top, |nodes|);
    forall x: nat | x < |after| ensures PointsInto(after[x], x, |after|) && UniqueKeys(after[x]) {
      if x < |nodes| && x != top { OldEntries(nodes[x], key, x, |nodes|); }
    }
  }

  /** The top row's tree gains or changes just the one key. */
  lemma {:induction false} TopRow(a: seq<Row>, b: seq<Row>, id: nat, row: Row, key: string, slot: Slot)
    requires Forward(a) && Forward(b) && id < |a| <= |b|
    requires SameBetween(a, b, id + 1, |a|)
    requires PointsInto(row, id, |a|) && PointsInto(SetKey(row, key, slot), id, |b|)
    requires slot.Ref? ==> id < slot.id < |b|
    ensures RowTree(b, id, SetKey(row, key, slot)) == SetKey(RowTree(a, id, row), key, SlotValue(b, slot))
  {
    if row.Entry? {
      if row.key == key {
        SameRowTree(a, b, id, |a|, row.rest);
      } else {
        if row.value.Ref? { SameTree(a, b, row.value.id, |a|); }
        TopRow(a, b, id, row.rest, key, slot);
      }
    }
  }

  lemma EnteredTree(nodes: seq<Row>, ids: seq<nat>, keys: seq<string>, key: string, slot: Slot)
    requires Forward(nodes) && Spine(nodes, ids, keys) && (slot.Ref? ==> slot.id == |nodes|)
    ensures var after := Entered(nodes, ids[|keys|], key, slot);
      && Forward(after)
      && TreeOf(after, 0) ==
           Assign(TreeOf(nodes, 0), keys, key, if slot.Str? then Text(slot.text) else Mapping(End))
  {
    var top := ids[|keys|];
    var after := Entered(nodes, top, key, slot);
    EnteredForward(nodes, top, key, slot);
    SpineUpdate(nodes, after, ids, keys, 0);
    assert keys[0..] == keys;
    assert SameBetween(nodes, after, top + 1, |nodes|);
    assert after[top] == SetKey(nodes[top], key, slot);
    TopRow(nodes, after, top, nodes[top], key, slot);
    var value := if slot.Str? then Text(slot.text) else Mapping(End);
    assert SlotValue(after, slot) == value by {
      if slot.Ref? { assert after[slot.id] == End && TreeOf(after, slot.id) == End; }
    }
    assert TreeOf(after, top) == SetKey(TreeOf(nodes, top), key, value);
    assert ids[0] == 0;
  }

  lemma EnteredSpine(nodes: seq<Row>, ids: seq<nat>, keys: seq<string>, key: string, slot: Slot)
    requires Forward(nodes) && Spine(nodes, ids, keys) && (slot.Ref? ==> slot.id == |nodes|)
    ensures var after := Entered(nodes, ids[|keys|], key, slot);
      && Spine(after, ids, keys)
      && (slot.Ref? ==> Spine(after, ids + [|nodes|], keys + [key]))
  {
    var top := ids[|keys|];
    var after := Entered(nodes, top, key, slot);
    forall k | 0 <= k < |keys| ensures Link(after, ids, keys, k) {
      SpineIncreasing(nodes, ids, keys, k);
      assert Link(nodes, ids, keys, k);
      assert forall x: nat :: x < ids[k + 1] ==> after[x] == nodes[x];
    }
    if slot.Ref? {
      var more, path := ids + [|nodes|], keys + [key];
      SetKeyKeeps(nodes[top], key, slot, top, |nodes|);
      forall k | 0 <= k < |path| ensures Link(after, more, path, k) {
        if k < |keys| {
          assert Link(after, ids, keys, k);
        }
      }
    }
  }

  lemma PoppedSpine(nodes: seq<Row>, ids: seq<nat>, keys: seq<string>, n: nat)
    requires Spine(nodes, ids, keys) && n <= |keys|
    ensures Spine(nodes, ids[..n + 1], keys[..n])
  {
    var fewer, path := ids[..n + 1], keys[..n];
    forall k | 0 <= k < n ensures Link(nodes, fewer, path, k) {
      assert Link(nodes, ids, keys, k);
    }
  }

  /** The loop's variables stand for a state of the specification. */
  ghost predicate Represents(nodes: seq<Row>, stack: seq<(int, nat)>, s: State) {
    && |stack| == |s.frames| + 1 && stack[0] == (-1, 0)
    && (forall k :: 0 <= k < |s.frames| ==> stack[k + 1].0 == s.frames[k].indent)
    && Forward(nodes) && Spine(nodes, Ids(stack), Keys(s.frames))
    && TreeOf(nodes, 0) == s.root
  }

  function Ids(stack: seq<(int, nat)>): (ids: seq<nat>)
    ensures |ids| == |stack|
    ensures forall k :: 0 <= k < |ids| ==> ids[k] == stack[k].1
  {
    seq(|stack|, k requires 0 <= k < |stack| => stack[k].1)
  }

  /** `while indent <= stack[-1][0]: stack.pop()`; the root's -1 stops it. */
  method PopTo(indent: nat, stack: seq<(int, nat)>, ghost frames: seq<Frame>) returns (kept: seq<(int, nat)>)
    requires |stack| == |frames| + 1 && stack[0].0 == -1
    requires forall k :: 0 <= k < |frames| ==> stack[k + 1].0 == frames[k].indent
    ensures kept == stack[..|Pop(frames, indent)| + 1]
  {
    kept := stack;
    ghost var left := frames;
    while indent <= kept[|kept| - 1].0
      invariant left <= frames && |kept| == |left| + 1 && kept == stack[..|left| + 1]
      invariant Pop(left, indent) == Pop(frames, indent)
      decreases |kept|
    {
      left := left[..|left| - 1];
      kept := kept[..|kept| - 1];
    }
  }

  /** The variables once the stack has been popped for the line. */
  ghost predicate PoppedFor(nodes: seq<Row>, kept: seq<(int, nat)>, line: Line, s: State)
    requires line.IsEntry()
  {
    Represents(nodes, kept, s.(frames := Pop(s.frames, line.indent)))
  }

  lemma PoppedRepresents(nodes: seq<Row>, stack: seq<(int, nat)>, line: Line, s: State)
    requires line.IsEntry() && Represents(nodes, stack, s)
    ensures PoppedFor(nodes, stack[..|Pop(s.frames, line.indent)| + 1], line, s)
  {
    var frames := Pop(s.frames, line.indent);
    hide Pop;
    var kept := stack[..|frames| + 1];
    assert Ids(kept) == Ids(stack)[..|frames| + 1] && Keys(frames) == Keys(s.frames)[..|frames|];
    PoppedSpine(nodes, Ids(stack), Keys(s.frames), |frames|);
  }

  lemma ScalarRepresents(nodes: seq<Row>, kept: seq<(int, nat)>, line: Line, s: State)
    requires line.Scalar? && PoppedFor(nodes, kept, line, s) && kept != []
    requires kept[|kept| - 1].1 < |nodes|
    ensures Represents(Entered(nodes, kept[|kept| - 1].1, line.key, Str(line.text)), kept, Step(s, line))
  {
    var frames := Pop(s.frames, line.indent);
    EnteredTree(nodes, Ids(kept), Keys(frames), line.key, Str(line.text));
    EnteredSpine(nodes, Ids(kept), Keys(frames), line.key, Str(line.text));
    hide Pop, Spine, TreeOf, Assign, Entered;
  }

  lemma SectionRepresents(nodes: seq<Row>, kept: seq<(int, nat)>, line: Line, s: State)
    requires line.Section? && PoppedFor(nodes, kept, line, s) && kept != []
    requires kept[|kept| - 1].1 < |nodes|
    ensures Represents(Entered(nodes, kept[|kept| - 1].1, line.key, Ref(|nodes|)),
                       kept + [(line.indent, |nodes|)], Step(s, line))
  {
    var frames := Pop(s.frames, line.indent);
    EnteredTree(nodes, Ids(kept), Keys(frames), line.key, Ref(|nodes|));
    EnteredSpine(nodes, Ids(kept), Keys(frames), line.key, Ref(|nodes|));
    hide Pop, Spine, TreeOf, Assign, Entered;
    assert Ids(kept + [(line.indent, |nodes|)]) == Ids(kept) + [|nodes|];
    assert Keys(frames + [Frame(line.indent, line.key, s.count)]) == Keys(frames) + [line.key];
  }

  lemma TopExists(nodes: seq<Row>, kept: seq<(int, nat)>, line: Line, s: State)
    requires line.IsEntry() && PoppedFor(nodes, kept, line, s)
    ensures kept != [] && kept[|kept| - 1].1 < |nodes|
  {
    assert Ids(kept)[|kept| - 1] == kept[|kept| - 1].1;
  }

  lemma StackShape(nodes: seq<Row>, stack: seq<(int, nat)>, s: State)
    requires Represents(nodes, stack, s)
    ensures |stack| == |s.frames| + 1 && stack[0].0 == -1
    ensures forall k :: 0 <= k < |s.frames| ==> stack[k + 1].0 == s.frames[k].indent
  {
  }

  method AssignLine(nodes: seq<Row>, stack: seq<(int, nat)>, line: Line, ghost s: State)
    returns (nodes': seq<Row>, stack': seq<(int, nat)>)
    requires line.IsEntry() && Represents(nodes, stack, s)
    ensures Represents(nodes', stack', Step(s, line))
  {
    hide Represents, PoppedFor, Pop, Step;
    StackShape(nodes, stack, s);
    PoppedRepresents(nodes, stack, line, s);
    stack' := PopTo(line.indent, stack, s.frames);
    TopExists(nodes, stack', line, s);
    var parent := stack'[|stack'| - 1].1;
    if line.Section? {
      SectionRepresents(nodes, stack', line, s);
      nodes' := nodes[parent := SetKey(nodes[parent], line.key, Ref(|nodes|))] + [End];
      stack' := stack' + [(line.indent, |nodes|)];
    } else {
      ScalarRepresents(nodes, stack', line, s);
      nodes' := nodes[parent := SetKey(nodes[parent], line.key, Str(line.text))];
      assert nodes' == nodes' + [];
    }
  }

  predicate NoneBad(lines: seq<Line>, n: nat) {
    n <= |lines| && forall i :: 0 <= i < n ==> !lines[i].Bad?
  }

  /**
   * The parser: the dictionaries it builds, root first, stand for the configuration the lines mean; it raises at
   * the first line it cannot read.
   */
  method ParseYamlSubset(raws: seq<string>, readable: string -> bool)
    returns (r: Result<seq<Row>, (nat, ConfigError)>)
    ensures var lines := ReadLines(raws, readable);
      && (r.Success? <==> NoneBad(lines, |lines|))
      && (r.Success? ==> r.value != [] && Forward(r.value) && TreeOf(r.value, 0) == Parsed(lines))
      && (r.Failure? ==>
           var (number, error) := r.error;
           1 <= number <= |lines| && lines[number - 1] == Bad(error) && NoneBad(lines, number - 1))
  {
    hide Represents, ReadLine, ReadLines, Step, Parsed, Run, TreeOf, Forward;
    ghost var lines := ReadLines(raws, readable);
    FirstAndLast(lines);
    var nodes: seq<Row> := [End];
    var stack: seq<(int, nat)> := [(-1, 0)];
    EmptyRepresents();
    for n := 0 to |raws|
      invariant NoneBad(lines, n)
      invariant Represents(nodes, stack, Run(START, lines, n))
    {
      var line := ReadLine(raws[n], readable);
      assert lines[n] == line;
      if line.Bad? {
        assert !NoneBad(lines, |lines|);
        return Failure((n + 1, line.error));
      }
      RunStep(lines, n);
      if line.IsEntry() {
        nodes, stack := AssignLine(nodes, stack, line, Run(START, lines, n));
      } else {
        BlankRepresents(nodes, stack, Run(START, lines, n));
      }
    }
    RootOf(nodes, stack, Run(START, lines, |lines|));
    return Success(nodes);
  }

  lemma FirstAndLast(lines: seq<Line>)
    ensures Run(START, lines, 0) == START && Parsed(lines) == Run(START, lines, |lines|).root
  {
  }

  lemma EmptyRepresents()
    ensures Represents([End], [(-1, 0)], START)
  {
    assert Ids([(-1, 0)]) == [0];
    assert TreeOf([End], 0) == End;
  }

  lemma BlankRepresents(nodes: seq<Row>, stack: seq<(int, nat)>, s: State)
    requires Represents(nodes, stack, s)
    ensures Represents(nodes, stack, Step(s, Blank))
  {
  }

  lemma RootOf(nodes: seq<Row>, stack: seq<(int, nat)>, s: State)
    requires Represents(nodes, stack, s)
    ensures nodes != [] && Forward(nodes) && TreeOf(nodes, 0) == s.root
  {
  }

  // ---------------------------------------------------------------- printing and parsing

  /** The lines of a configuration, each nested mapping one step further in. */
  function Print(d: Config, indent: nat, step: nat): seq<Line> {
    match d
    case End => []
    case Entry(key, Text(text), rest) => [Scalar(indent, key, text)] + Print(rest, indent, step)
    case Entry(key, Mapping(entries), rest) =>
      [Section(indent, key)] + (Print(entries, indent + step, step) + Print(rest, indent, step))
  }

  /** No mapping anywhere has a key twice. */
  predicate AllUnique(d: Config) {
    d.Entry? ==>
      && !HasKey(d.rest, d.key) && AllUnique(d.rest)
      && (d.value.Mapping? ==> AllUnique(d.value.entries))
  }

  lemma {:induction false} RunConcat(s: State, a: seq<Line>, b: seq<Line>, n: nat)
    requires n <= |b|
    ensures Run(s, a + b, |a| + n) == Run(Run(s, a, |a|), b, n)
  {
    if n == 0 {
      RunPrefix(s, a, b, |a|);
    } else {
      RunConcat(s, a, b, n - 1);
    }
  }

  lemma {:induction false} RunPrefix(s: State, a: seq<Line>, b: seq<Line>, n: nat)
    requires n <= |a|
    ensures Run(s, a + b, n) == Run(s, a, n)
  {
    if n > 0 { RunPrefix(s, a, b, n - 1); }
  }

  function RunAll(s: State, lines: seq<Line>): State { Run(s, lines, |lines|) }

  lemma RunAllConcat(s: State, a: seq<Line>, b: seq<Line>)
    ensures RunAll(s, a + b) == RunAll(RunAll(s, a), b)
  {
    hide Run;
    RunConcat(s, a, b, |b|);
    assert |a + b| == |a| + |b|;
  }

  lemma RunAllOne(s: State, line: Line)
    ensures RunAll(s, [line]) == Step(s, line)
  {
    assert Run(s, [line], 0) == s;
  }

  lemma {:induction false} PopTwice(frames: seq<Frame>, low: nat, high: nat)
    requires low <= high
    ensures Pop(Pop(frames, high), low) == Pop(frames, low)
  {
    if frames != [] && high <= frames[|frames| - 1].indent {
      PopTwice(frames[..|frames| - 1], low, high);
    }
  }

  // ---- laws of keyed dictionaries and of replacing a nested mapping

  lemma {:induction false} SetNew<V>(d: Dict<V>, key: string, value: V, more: Dict<V>)
    requires !HasKey(d, key)
    ensures Append(SetKey(d, key, value), more) == Append(d, Entry(key, value, more))
    ensures Lookup(SetKey(d, key, value), key) == Some(value)
    ensures forall k :: HasKey(SetKey(d, key, value), k) <==> k == key || HasKey(d, k)
  {
    if d.Entry? { SetNew(d.rest, key, value, more); }
  }

  lemma {:induction false} SetLaws<V>(d: Dict<V>, key: string, v: V, w: V)
    ensures Lookup(SetKey(d, key, v), key) == Some(v)
    ensures SetKey(SetKey(d, key, v), key, w) == SetKey(d, key, w)
    ensures Lookup(d, key) == Some(v) ==> SetKey(d, key, v) == d
  {
    if d.Entry? { SetLaws(d.rest, key, v, w); }
  }

  lemma {:induction false} ReplaceLaws(root: Config, path: seq<string>, a: Config, b: Config)
    requires Get(root, path).Some?
    ensures var r := Replace(root, path, a);
      && Get(r, path) == Some(a)
      && Replace(r, path, b) == Replace(root, path, b)
    ensures Get(root, path) == Some(a) ==> Replace(root, path, a) == root
    decreases |path|
  {
    if path != [] {
      var child := Lookup(root, path[0]).value.entries;
      ReplaceLaws(child, path[1..], a, b);
      SetLaws(root, path[0], Mapping(Replace(child, path[1..], a)), Mapping(Replace(child, path[1..], b)));
      SetLaws(root, path[0], Mapping(child), Mapping(child));
    }
  }

  lemma {:induction false} ReplaceDeeper(root: Config, path: seq<string>, key: string, d: Config, sub: Config)
    requires Get(root, path) == Some(d) && Lookup(d, key).Some? && Lookup(d, key).value.Mapping?
    ensures Get(root, path + [key]) == Some(Lookup(d, key).value.entries)
    ensures Replace(root, path + [key], sub) == Replace(root, path, SetKey(d, key, Mapping(sub)))
    decreases |path|
  {
    var longer := path + [key];
    if path == [] {
      assert longer[0] == key && longer[1..] == [];
    } else {
      assert longer[0] == path[0] && longer[1..] == path[1..] + [key];
      ReplaceDeeper(Lookup(root, path[0]).value.entries, path[1..], key, d, sub);
    }
  }

  // ---- the round trip

  /** The stack has the given frames under anything at or right of the indent, whose mapping is d. */
  predicate Inside(s: State, frames: seq<Frame>, indent: nat, d: Config) {
    Pop(s.frames, indent) == frames && Get(s.root, Keys(frames)) == Some(d)
  }

  predicate DisjointKeys(a: Config, b: Config) {
    b.Entry? ==> !HasKey(a, b.key) && DisjointKeys(a, b.rest)
  }

  /** Reading has appended d to the mapping `before` at the frames, and touched nothing else. */
  predicate Appended(r: State, s: State, frames: seq<Frame>, indent: nat, before: Config, d: Config) {
    && Get(s.root, Keys(frames)).Some?
    && Pop(r.frames, indent) == frames
    && r.root == Replace(s.root, Keys(frames), Append(before, d))
  }

  lemma {:induction false} StillDisjoint(before: Config, key: string, value: Value, rest: Config, more: Config)
    requires DisjointKeys(before, rest) && !HasKey(rest, key)
    requires forall k :: HasKey(more, k) <==> k == key || HasKey(before, k)
    ensures DisjointKeys(more, rest)
  {
    if rest.Entry? { StillDisjoint(before, key, value, rest.rest, more); }
  }

  lemma {:induction false} DisjointFromNothing(d: Config)
    ensures DisjointKeys(End, d) && Append(End, d) == d
  {
    if d.Entry? { DisjointFromNothing(d.rest); }
  }

  lemma {:induction false} AppendNothing<V>(d: Dict<V>)
    ensures Append(d, End) == d
  {
    if d.Entry? { AppendNothing(d.rest); }
  }

  lemma PrintedScalar(s: State, frames: seq<Frame>, indent: nat, before: Config, key: string, text: string)
    requires Inside(s, frames, indent, before)
    ensures var next := Step(s, Scalar(indent, key, text));
      && next.root == Replace(s.root, Keys(frames), SetKey(before, key, Text(text)))
      && Inside(next, frames, indent, SetKey(before, key, Text(text)))
  {
    ReplaceLaws(s.root, Keys(frames), SetKey(before, key, Text(text)), End);
  }

  lemma PrintedSection(s: State, frames: seq<Frame>, indent: nat, step: nat, before: Config, key: string)
    requires step > 0 && Inside(s, frames, indent, before)
    ensures var next, under := Step(s, Section(indent, key)), SetKey(before, key, Mapping(End));
      && next.root == Replace(s.root, Keys(frames), under)
      && Get(next.root, Keys(frames)) == Some(under)
      && Inside(next, frames + [Frame(indent, key, s.count)], indent + step, End)
  {
    var under := SetKey(before, key, Mapping(End));
    var inner := frames + [Frame(indent, key, s.count)];
    ReplaceLaws(s.root, Keys(frames), under, End);
    SetLaws(before, key, Mapping(End), Mapping(End));
    var root := Replace(s.root, Keys(frames), under);
    ReplaceDeeper(root, Keys(frames), key, under, End);
    assert Keys(inner) == Keys(frames) + [key];
  }

  /** After the nested mapping has been read, the outer one holds it, and the stack pops back to the outer one. */
  lemma PrintedNested(s: State, r: State, frames: seq<Frame>, indent: nat, step: nat, before: Config, key: string,
                      entries: Config)
    requires Inside(s, frames, indent, before)
    requires var next, under := Step(s, Section(indent, key)), SetKey(before, key, Mapping(End));
      && next.root == Replace(s.root, Keys(frames), under)
      && Get(next.root, Keys(frames)) == Some(under)
      && Appended(r, next, frames + [Frame(indent, key, s.count)], indent + step, End, entries)
    ensures var held := SetKey(before, key, Mapping(entries));
      && r.root == Replace(s.root, Keys(frames), held)
      && Inside(r, frames, indent, held)
  {
    var next, under := Step(s, Section(indent, key)), SetKey(before, key, Mapping(End));
    var inner := frames + [Frame(indent, key, s.count)];
    var path := Keys(frames);
    assert Keys(inner) == path + [key];
    DisjointFromNothing(entries);
    SetLaws(before, key, Mapping(End), Mapping(entries));
    ReplaceDeeper(next.root, path, key, under, entries);
    ReplaceLaws(s.root, path, under, SetKey(before, key, Mapping(entries)));
    ReplaceLaws(s.root, path, SetKey(before, key, Mapping(entries)), End);
    PopTwice(r.frames, indent, indent + step);
    assert inner[..|frames|] == frames;
    assert Pop(inner, indent) == Pop(frames, indent);
    PopTwice(s.frames, indent, indent);
  }

  /** The state after the lines of the first entry. */
  function FirstState(s: State, indent: nat, step: nat, d: Config): State
    requires d.Entry?
  {
    match d.value
    case Text(text) => Step(s, Scalar(indent, d.key, text))
    case Mapping(entries) => RunAll(Step(s, Section(indent, d.key)), Print(entries, indent + step, step))
  }

  lemma PrintedFirst(s: State, indent: nat, step: nat, d: Config)
    requires d.Entry?
    ensures RunAll(s, Print(d, indent, step)) == RunAll(FirstState(s, indent, step, d), Print(d.rest, indent, step))
  {
    hide RunAll, Step;
    var rest := Print(d.rest, indent, step);
    match d.value
    case Text(text) =>
      var line := Scalar(indent, d.key, text);
      RunAllOne(s, line);
      RunAllConcat(s, [line], rest);
    case Mapping(entries) =>
      var line := Section(indent, d.key);
      var nested := Print(entries, indent + step, step);
      RunAllOne(s, line);
      RunAllConcat(s, [line], nested + rest);
      RunAllConcat(Step(s, line), nested, rest);
  }

  /** Appending the first entry and then the others is appending them all. */
  lemma AppendedRest(r: State, first: State, s: State, frames: seq<Frame>, indent: nat, before: Config, d: Config)
    requires d.Entry? && AllUnique(d) && DisjointKeys(before, d)
    requires Get(s.root, Keys(frames)).Some?
    requires first.root == Replace(s.root, Keys(frames), SetKey(before, d.key, d.value))
    requires Appended(r, first, frames, indent, SetKey(before, d.key, d.value), d.rest)
    ensures Appended(r, s, frames, indent, before, d)
  {
    var held := SetKey(before, d.key, d.value);
    SetNew(before, d.key, d.value, d.rest);
    ReplaceLaws(s.root, Keys(frames), held, Append(held, d.rest));
  }

  lemma PrintedNothing(s: State, frames: seq<Frame>, indent: nat, step: nat, before: Config)
    requires Inside(s, frames, indent, before)
    ensures Appended(RunAll(s, Print(End, indent, step)), s, frames, indent, before, End)
  {
    AppendNothing(before);
    ReplaceLaws(s.root, Keys(frames), before, End);
  }

  lemma PathExists(s: State, frames: seq<Frame>, indent: nat, d: Config)
    requires Inside(s, frames, indent, d)
    ensures Get(s.root, Keys(frames)).Some?
  {
  }

  lemma EntryFacts(before: Config, d: Config)
    requires d.Entry? && AllUnique(d) && DisjointKeys(before, d)
    ensures AllUnique(d.rest) && DisjointKeys(SetKey(before, d.key, d.value), d.rest)
    ensures d.value.Mapping? ==> AllUnique(d.value.entries)
  {
    SetNew(before, d.key, d.value, d.rest);
    StillDisjoint(before, d.key, d.value, d.rest, SetKey(before, d.key, d.value));
  }

  /** Reading a printed mapping appends it to the mapping it is printed in. */
  lemma {:induction false} ParsePrinted(s: State, frames: seq<Frame>, indent: nat, step: nat, before: Config, d: Config)
    requires step > 0 && AllUnique(d) && DisjointKeys(before, d)
    requires Inside(s, frames, indent, before)
    ensures Appended(RunAll(s, Print(d, indent, step)), s, frames, indent, before, d)
    decreases d
  {
    hide Pop, Replace, SetKey, Append, RunAll, Print, Step, Appended, AllUnique, DisjointKeys, Inside, HasKey;
    if d.End? {
      PrintedNothing(s, frames, indent, step, before);
    } else {
      var first := FirstState(s, indent, step, d);
      var held := SetKey(before, d.key, d.value);
      EntryFacts(before, d);
      PrintedFirst(s, indent, step, d);
      if d.value.Text? {
        PrintedScalar(s, frames, indent, before, d.key, d.value.text);
      } else {
        var next := Step(s, Section(indent, d.key));
        PrintedSection(s, frames, indent, step, before, d.key);
        DisjointFromNothing(d.value.entries);
        ParsePrinted(next, frames + [Frame(indent, d.key, s.count)], indent + step, step, End, d.value.entries);
        PrintedNested(s, first, frames, indent, step, before, d.key, d.value.entries);
      }
      ParsePrinted(first, frames, indent, step, held, d.rest);
      PathExists(s, frames, indent, before);
      AppendedRest(RunAll(first, Print(d.rest, indent, step)), first, s, frames, indent, before, d);
    }
  }

  /** Printing any configuration with a fixed indentation step and parsing it gives it back. */
  lemma RoundTrip(d: Config, step: nat)
    requires step > 0 && AllUnique(d)
    ensures Parsed(Print(d, 0, step)) == d
  {
    DisjointFromNothing(d);
    ParsePrinted(START, [], 0, step, End, d);
    assert Keys([]) == [];
  }

  // ---- the same with the lines as text

  /** Text that survives comment removal and stripping. */
  predicate Printable(s: string) {
    s != "" && !IsSpace(s[0]) && !IsSpace(s[|s| - 1]) && '#' !in s
  }

  predicate PrintableLine(line: Line, readable: string -> bool) {
    && line.IsEntry() && Printable(line.key) && ':' !in line.key
    && (line.Scalar? ==> Printable(line.text) && readable(line.text))
  }

  function Spaces(n: nat): (s: string)
    ensures |s| == n && forall i :: 0 <= i < n ==> s[i] == ' '
  {
    seq(n, _ => ' ')
  }

  function Body(line: Line): string
    requires line.IsEntry()
  {
    line.key + [':'] + (if line.Scalar? then [' '] + line.text else "")
  }

  function Render(line: Line): string
    requires line.IsEntry()
  {
    Spaces(line.indent) + Body(line)
  }

  lemma {:induction false} NoComment(line: string, i: nat, quote: Option<char>)
    requires '#' !in line && i <= |line|
    ensures CommentStart(line, i, quote) == |line|
    decreases |line| - i
  {
    if i < |line| {
      var c := line[i];
      NoComment(line, i + 1, if (c == '\'' || c == '"') && (i == 0 || line[i - 1] != '\\') then
        (if quote == Some(c) then None else Some(c)) else quote);
    }
  }

  lemma {:induction false} Indented(n: nat, s: string)
    requires s != "" && !IsSpace(s[0])
    ensures LeadingSpaces(Spaces(n) + s) == n
    ensures StripLeft(Spaces(n) + s) == s
  {
    var line := Spaces(n) + s;
    if n > 0 {
      Indented(n - 1, s);
      assert line[1..] == Spaces(n - 1) + s;
    } else {
      assert line == s;
    }
  }

  lemma {:induction false} ColonAfter(key: string, tail: string)
    requires ':' !in key
    ensures FirstColon(key + [':'] + tail) == |key|
  {
    var s := key + [':'] + tail;
    if key != "" {
      ColonAfter(key[1..], tail);
      assert s[1..] == key[1..] + [':'] + tail;
      assert s[0] == key[0];
    }
  }

  lemma EntryRoundTrip(line: Line, readable: string -> bool)
    requires PrintableLine(line, readable)
    ensures ReadEntry(line.indent, Body(line), readable) == line
  {
    var text, tail := Body(line), if line.Scalar? then [' '] + line.text else "";
    ColonAfter(line.key, tail);
    assert text[..|line.key|] == line.key && text[|line.key| + 1..] == tail;
    assert Strip(line.key) == line.key;
    hide FirstColon, IsSpace;
    if line.Scalar? {
      Indented(1, line.text);
      assert tail == Spaces(1) + line.text;
      assert StripRight(line.text) == line.text;
      assert Strip(tail) == line.text;
    }
  }

  lemma RenderedStrips(line: Line, readable: string -> bool)
    requires PrintableLine(line, readable)
    ensures var raw, text := Render(line), Body(line);
      && StripRight(raw) == raw && Strip(raw) == text && text != ""
      && LeadingSpaces(raw) == line.indent && '\t' !in raw[..line.indent] && '#' !in raw
  {
    var raw, text := Render(line), Body(line);
    assert text[0] == line.key[0] && raw[|raw| - 1] == text[|text| - 1];
    assert !IsSpace(text[|text| - 1]);
    Indented(line.indent, text);
    hide LeadingSpaces, IsSpace;
    assert '#' !in text;
    assert '#' !in Spaces(line.indent);
    assert raw[..line.indent] == Spaces(line.indent);
  }

  /** A rendered line reads back as itself. */
  lemma LineRoundTrip(line: Line, readable: string -> bool)
    requires PrintableLine(line, readable)
    ensures ReadLine(Render(line), readable) == line
  {
    var raw := Render(line);
    RenderedStrips(line, readable);
    NoComment(raw, 0, None);
    assert raw[..|raw|] == raw;
    EntryRoundTrip(line, readable);
    hide Render, Body, Strip, StripRight, LeadingSpaces, ReadEntry, CommentStart;
  }

  /** Every key and every scalar of the configuration can stand on a line. */
  predicate PrintableConfig(d: Config, readable: string -> bool) {
    d.Entry? ==>
      && Printable(d.key) && ':' !in d.key && PrintableConfig(d.rest, readable)
      && (match d.value
          case Text(text) => Printable(text) && readable(text)
          case Mapping(entries) => PrintableConfig(entries, readable))
  }

  lemma {:induction false} PrintsPrintable(d: Config, indent: nat, step: nat, readable: string -> bool)
    requires PrintableConfig(d, readable)
    ensures forall i :: 0 <= i < |Print(d, indent, step)| ==> PrintableLine(Print(d, indent, step)[i], readable)
    decreases d
  {
    if d.Entry? {
      PrintsPrintable(d.rest, indent, step, readable);
      if d.value.Mapping? { PrintsPrintable(d.value.entries, indent + step, step, readable); }
    }
  }

  /** The printed text, line by line, parses back to the configuration. */
  lemma TextRoundTrip(d: Config, step: nat, readable: string -> bool, raws: seq<string>)
    requires step > 0 && AllUnique(d) && PrintableConfig(d, readable)
    requires |raws| == |Print(d, 0, step)|
    requires forall i :: 0 <= i < |raws| ==> var line := Print(d, 0, step)[i]; line.IsEntry() && raws[i] == Render(line)
    ensures ReadLines(raws, readable) == Print(d, 0, step)
    ensures Parsed(ReadLines(raws, readable)) == d
  {
    var lines := Print(d, 0, step);
    PrintsPrintable(d, 0, step, readable);
    forall i | 0 <= i < |raws| ensures ReadLines(raws, readable)[i] == lines[i] {
      LineRoundTrip(lines[i], readable);
    }
    RoundTrip(d, step);
  }
}
