/** Bracket matching over model output, and fitting a prompt into a character budget. */
module PromptBudget {
  import opened Prelude

  // ---------------------------------------------------------------- the three-pair Dyck grammar

  predicate Opens(c: char) { c in {'(', '[', '{'} }

  predicate Closes(c: char) { c in {')', ']', '}'} }

  function Closer(c: char): (r: char)
    requires Opens(c)
  {
    if c == '(' then ')' else if c == '[' then ']' else '}'
  }

  /** Derivations of  W -> empty | open W close W. */
  datatype Derivation = Empty | Wrap(open: char, inner: Derivation, rest: Derivation)

  predicate Proper(d: Derivation) {
    d.Wrap? ==> Opens(d.open) && Proper(d.inner) && Proper(d.rest)
  }

  function Yield(d: Derivation): string
    requires Proper(d)
  {
    match d
    case Empty => ""
    case Wrap(open, inner, rest) => [open] + Yield(inner) + [Closer(open)] + Yield(rest)
  }

  ghost predicate Derives(d: Derivation, s: string) {
    Proper(d) && Yield(d) == s
  }

  ghost predicate Dyck(s: string) {
    exists d :: Derives(d, s)
  }

  // ---------------------------------------------------------------- what counts as a bracket

  datatype Quote = Outside | InSingle | InDouble

  /** The quote in force after an unescaped character: inside one kind, the other is an ordinary character. */
  function NextQuote(quote: Quote, c: char): Quote {
    match quote
    case Outside => if c == '\'' then InSingle else if c == '"' then InDouble else Outside
    case InSingle => if c == '\'' then Outside else InSingle
    case InDouble => if c == '"' then Outside else InDouble
  }

  /** The brackets of the text that are neither escaped nor quoted. */
  function Brackets(text: string, quote: Quote, escaped: bool): string {
    if text == "" then ""
    else if escaped then Brackets(text[1..], quote, false)
    else if text[0] == '\\' then Brackets(text[1..], quote, true)
    else
      (if quote.Outside? && (Opens(text[0]) || Closes(text[0])) then [text[0]] else "")
      + Brackets(text[1..], NextQuote(quote, text[0]), false)
  }

  // ---------------------------------------------------------------- the matcher

  /** The stack of closers awaited accepts the rest: everything opened is closed, in order. */
  predicate Accepts(s: string, stack: string) {
    if s == "" then stack == ""
    else if Opens(s[0]) then Accepts(s[1..], stack + [Closer(s[0])])
    else stack != "" && stack[|stack| - 1] == s[0] && Accepts(s[1..], stack[..|stack| - 1])
  }

  /** False exactly when the visible brackets form a word of the grammar. */
  method UnbalancedPairs(text: string) returns (unbalanced: bool)
    ensures unbalanced <==> !Dyck(Brackets(text, Outside, false))
  {
    hide Dyck, Proper, Brackets, Accepts;
    AcceptsIsDyck(Brackets(text, Outside, false));
    var stack := "";
    var inSingle, inDouble, escaped := false, false, false;
    for i := 0 to |text|
      invariant !(inSingle && inDouble)
      invariant Accepts(Brackets(text, Outside, false), "")
             == Accepts(Brackets(text[i..], QuoteOf(inSingle, inDouble), escaped), stack)
    {
      var c := text[i];
      assert text[i..][0] == c && text[i..][1..] == text[i + 1..];
      if escaped || inSingle || inDouble || !(Opens(c) || Closes(c)) {
        NoBracketFirst(text[i..], QuoteOf(inSingle, inDouble), escaped);
      } else {
        BracketFirst(text[i..], stack);
      }
      if escaped {
        escaped := false;
      } else if c == '\\' {
        escaped := true;
      } else if c == '\'' && !inDouble {
        inSingle := !inSingle;
      } else if c == '"' && !inSingle {
        inDouble := !inDouble;
      } else if inSingle || inDouble {
      } else if Opens(c) {
        stack := stack + [Closer(c)];
      } else if Closes(c) {
        if stack == "" || stack[|stack| - 1] != c {
          return true;
        }
        stack := stack[..|stack| - 1];
      }
    }
    assert text[|text|..] == "";
    EndOfText(QuoteOf(inSingle, inDouble), escaped, stack);
    return stack != "";
  }

  function QuoteOf(inSingle: bool, inDouble: bool): Quote {
    if inSingle then InSingle else if inDouble then InDouble else Outside
  }

  /** A character that is no visible bracket only moves the quote and escape flags. */
  lemma NoBracketFirst(text: string, quote: Quote, escaped: bool)
    requires text != ""
    requires escaped || text[0] == '\\' || !quote.Outside? || !(Opens(text[0]) || Closes(text[0]))
    ensures Brackets(text, quote, escaped) == Brackets(text[1..],
      if escaped || text[0] == '\\' then quote else NextQuote(quote, text[0]), !escaped && text[0] == '\\')
  {
    ghost var rest := Brackets(text[1..], NextQuote(quote, text[0]), false);
    assert "" + rest == rest;
  }

  lemma EndOfText(quote: Quote, escaped: bool, stack: string)
    ensures Accepts(Brackets("", quote, escaped), stack) <==> stack == ""
  {
  }

  lemma BracketFirst(text: string, stack: string)
    requires text != "" && (Opens(text[0]) || Closes(text[0]))
    ensures Accepts(Brackets(text, Outside, false), stack) == (
      var rest := Brackets(text[1..], Outside, false);
      if Opens(text[0]) then Accepts(rest, stack + [Closer(text[0])])
      else stack != "" && stack[|stack| - 1] == text[0] && Accepts(rest, stack[..|stack| - 1]))
  {
    var s := Brackets(text, Outside, false);
    assert s[0] == text[0] && s[1..] == Brackets(text[1..], Outside, false);
  }

  // ---------------------------------------------------------------- the stack decides the grammar

  lemma AcceptsIsDyck(s: string)
    ensures Accepts(s, "") <==> Dyck(s)
  {
    if Accepts(s, "") {
      var d, rest := Decompose(s, "");
      assert Derives(d, s);
    }
    if Dyck(s) {
      var d :| Derives(d, s);
      SkipsWord(d, "", "");
      assert s + "" == s;
    }
  }

  lemma AcceptsOpener(c: char, rest: string, stack: string)
    requires Opens(c)
    ensures Accepts([c] + rest, stack) == Accepts(rest, stack + [Closer(c)])
  {
    assert ([c] + rest)[1..] == rest;
  }

  lemma AcceptsCloser(c: char, rest: string, stack: string)
    requires Closes(c)
    ensures Accepts([c] + rest, stack + [c]) == Accepts(rest, stack)
  {
    assert ([c] + rest)[1..] == rest;
    assert (stack + [c])[..|stack|] == stack;
  }

  lemma YieldWrap(open: char, inner: Derivation, after: Derivation, rest: string)
    requires Opens(open) && Proper(inner) && Proper(after)
    ensures Yield(Wrap(open, inner, after)) + rest
         == [open] + (Yield(inner) + ([Closer(open)] + (Yield(after) + rest)))
  {
    Regrouped([open], Yield(inner), [Closer(open)], Yield(after), rest);
    hide Opens, Closer;
  }

  lemma Regrouped(a: string, b: string, c: string, d: string, e: string)
    ensures a + b + c + d + e == a + (b + (c + (d + e)))
  {
    ConcatAssociative(a + b + c, d, e);
    ConcatAssociative(a + b, c, d + e);
    ConcatAssociative(a, b, c + (d + e));
  }

  /** Complete: the matcher reads over any word of the grammar without disturbing its stack. */
  lemma {:induction false} SkipsWord(d: Derivation, rest: string, stack: string)
    requires Proper(d)
    ensures Accepts(Yield(d) + rest, stack) == Accepts(rest, stack)
  {
    match d
    case Empty =>
      assert "" + rest == rest;
    case Wrap(open, inner, after) =>
      hide Accepts, Yield;
      var tail := Yield(after) + rest;
      var closed := [Closer(open)] + tail;
      YieldWrap(open, inner, after, rest);
      AcceptsOpener(open, Yield(inner) + closed, stack);
      SkipsWord(inner, closed, stack + [Closer(open)]);
      AcceptsCloser(Closer(open), tail, stack);
      SkipsWord(after, rest, stack);
  }

  predicate AcceptsAfterPop(rest: string, stack: string) {
    if stack == "" then rest == ""
    else rest != "" && rest[0] == stack[|stack| - 1] && Accepts(rest[1..], stack[..|stack| - 1])
  }

  /** Sound: what is accepted starts with a word, followed by the closer on top of the stack. */
  lemma {:induction false} Decompose(s: string, stack: string) returns (d: Derivation, rest: string)
    requires Accepts(s, stack)
    ensures Proper(d) && s == Yield(d) + rest
    ensures AcceptsAfterPop(rest, stack)
    decreases |s|
  {
    if s == "" || !Opens(s[0]) {
      d, rest := Empty, s;
    } else {
      var inner, closed := Decompose(s[1..], stack + [Closer(s[0])]);
      assert (stack + [Closer(s[0])])[..|stack|] == stack;
      assert closed[0] == Closer(s[0]) && Accepts(closed[1..], stack);
      hide Accepts, AcceptsAfterPop, Yield;
      var after;
      after, rest := Decompose(closed[1..], stack);
      d := Wrap(s[0], inner, after);
      assert closed == [closed[0]] + closed[1..] && s == [s[0]] + s[1..];
      YieldWrap(s[0], inner, after, rest);
    }
  }

  // ---------------------------------------------------------------- the character budget

  /** The fixed texts of the budgeter; nothing below depends on their wording. */
  datatype Wording = Wording(
    historyHeader: string,
    historyEnds: seq<string>,
    summarized: string,
    summaryHeader: string,
    latestHeader: string,
    removed: string)
  {
    function Fixed(): nat { |summarized| + |summaryHeader| + |latestHeader| }
  }

  /** The stripped summary, or None when the summarizer raises. */
  type Summarizer = string -> Option<string>

  datatype Strategy = Whole | PriorAttempts | OlderContext | MarkerOnly | Tail

  datatype Budgeted = Budgeted(text: string, strategy: Strategy)

  predicate OccursAt(text: string, pattern: string, at: nat) {
    at + |pattern| <= |text| && text[at..at + |pattern|] == pattern
  }

  /** `str.find` from a position. */
  function Find(text: string, pattern: string, from: nat): (r: Option<nat>)
    requires from <= |text|
    ensures r.Some? ==> from <= r.value && OccursAt(text, pattern, r.value)
    ensures forall at :: from <= at < (if r.Some? then r.value else |text|) ==> !OccursAt(text, pattern, at)
    decreases |text| - from
  {
    if OccursAt(text, pattern, from) then Some(from)
    else if from == |text| then None
    else Find(text, pattern, from + 1)
  }

  /** The earliest end marker at or after a position, or the end of the text. */
  function BodyEnd(text: string, from: nat, ends: seq<string>): (end: nat)
    requires from <= |text|
    ensures from <= end <= |text|
    ensures forall e, at :: e in ends && from <= at < end ==> !OccursAt(text, e, at)
  {
    if ends == [] then |text|
    else
      var rest := BodyEnd(text, from, ends[1..]);
      var first := Find(text, ends[0], from);
      if first.Some? && first.value < rest then first.value else rest
  }

  function SummarizeHistory(text: string, maxChars: int, w: Wording, summarize: Summarizer): Option<string> {
    var start := Find(text, w.historyHeader, 0);
    if start.None? then None
    else
      var bodyStart := start.value + |w.historyHeader|;
      var bodyEnd := BodyEnd(text, bodyStart, w.historyEnds);
      var summary := summarize(text[bodyStart..bodyEnd]);
      if summary.None? || summary.value == "" then None
      else
        var candidate := text[..bodyStart] + "\n" + summary.value + text[bodyEnd..];
        if |candidate| > maxChars then None else Some(candidate)
  }

  function Max(a: int, b: int): int { if a < b then b else a }

  /** `text[:n]` for n >= 0. */
  function Take(text: string, n: nat): string { if n < |text| then text[..n] else text }

  /** `text[-n:]` for n > 0. */
  function Last(text: string, n: nat): string { if n < |text| then text[|text| - n..] else text }

  function SummarizeOlder(text: string, maxChars: int, w: Wording, summarize: Summarizer): Option<string> {
    if maxChars <= w.Fixed() + 2 then None
    else
      var contentBudget := maxChars - w.Fixed();
      var latestBudget := Max(1, contentBudget / 2);
      var latest := Last(text, latestBudget);
      var older := text[..|text| - |latest|];
      if older == "" then None
      else
        var summary := summarize(older);
        if summary.None? || summary.value == "" then None
        else
          var cut := Take(summary.value, Max(1, contentBudget - |latest|));
          Some(Take(w.summarized + w.summaryHeader + cut + w.latestHeader + latest, maxChars))
  }

  function BudgetPrompt(text: string, maxChars: int, w: Wording, summarizer: Option<Summarizer>): Budgeted {
    if maxChars <= 0 || |text| <= maxChars then Budgeted(text, Whole)
    else
      var history := if summarizer.Some? then SummarizeHistory(text, maxChars, w, summarizer.value) else None;
      var older := if summarizer.Some? then SummarizeOlder(text, maxChars, w, summarizer.value) else None;
      if history.Some? then Budgeted(history.value, PriorAttempts)
      else if older.Some? then Budgeted(older.value, OlderContext)
      else if maxChars <= |w.removed| then Budgeted(w.removed[..maxChars], MarkerOnly)
      else Budgeted(w.removed + Last(text, maxChars - |w.removed|), Tail)
  }

  predicate EndsWith(text: string, suffix: string) {
    |suffix| <= |text| && text[|text| - |suffix|..] == suffix
  }

  /** A marker that ends the history starts at the position. */
  predicate EndsHistory(text: string, w: Wording, at: nat) {
    exists e :: e in w.historyEnds && OccursAt(text, e, at)
  }

  /**
   * The history is what stands between the first header and the first end marker after it, or the end of the
   * prompt; its summary takes its place and everything on both sides is kept.
   */
  ghost predicate HistoryReplaced(text: string, w: Wording, summarizer: Option<Summarizer>, head: nat, tail: nat,
                                  result: string) {
    && |w.historyHeader| <= head <= tail <= |text| && summarizer.Some?
    && OccursAt(text, w.historyHeader, head - |w.historyHeader|)
    && (forall at :: 0 <= at < head - |w.historyHeader| ==> !OccursAt(text, w.historyHeader, at))
    && (forall at :: head <= at < tail ==> !EndsHistory(text, w, at))
    && (tail < |text| ==> EndsHistory(text, w, tail))
    && var summary := summarizer.value(text[head..tail]);
      && summary.Some? && summary.value != ""
      && result == text[..head] + "\n" + summary.value + text[tail..]
  }

  /** How much of the end of the prompt survives verbatim, by strategy; a history summary keeps both sides. */
  ghost predicate KeepsLatest(text: string, maxChars: int, w: Wording, summarizer: Option<Summarizer>, r: Budgeted) {
    match r.strategy
    case Whole => r.text == text
    case PriorAttempts => exists head: nat, tail: nat :: HistoryReplaced(text, w, summarizer, head, tail, r.text)
    case OlderContext =>
      maxChars - w.Fixed() > 2 && EndsWith(r.text, Last(text, (maxChars - w.Fixed()) / 2))
    case MarkerOnly => maxChars <= |w.removed|
    case Tail => maxChars > |w.removed| && EndsWith(r.text, Last(text, maxChars - |w.removed|))
  }

  /** A positive budget is never exceeded, the final cut never falls inside the latest context it protects. */
  lemma BudgetHolds(text: string, maxChars: int, w: Wording, summarizer: Option<Summarizer>)
    ensures var r := BudgetPrompt(text, maxChars, w, summarizer);
      && (maxChars > 0 ==> |r.text| <= maxChars)
      && (maxChars > 0 && r.strategy == Tail ==> |r.text| == maxChars)
      && (r.strategy == Whole <==> maxChars <= 0 || |text| <= maxChars)
      && KeepsLatest(text, maxChars, w, summarizer, r)
  {
    var r := BudgetPrompt(text, maxChars, w, summarizer);
    if r.strategy == OlderContext {
      OlderKept(text, maxChars, w, summarizer.value);
    } else if r.strategy == PriorAttempts {
      HistoryKept(text, maxChars, w, summarizer.value);
    }
    hide SummarizeOlder, SummarizeHistory, HistoryReplaced;
  }

  /** The end found is the end of the text or the start of a marker. */
  lemma {:induction false} BodyEndIsMarker(text: string, from: nat, ends: seq<string>)
    requires from <= |text|
    ensures var end := BodyEnd(text, from, ends);
      end < |text| ==> exists e :: e in ends && OccursAt(text, e, end)
  {
    if ends != [] {
      BodyEndIsMarker(text, from, ends[1..]);
      var end := BodyEnd(text, from, ends);
      if end < |text| {
        var e :| e in ends && OccursAt(text, e, end);
      }
    }
  }

  lemma HistoryKept(text: string, maxChars: int, w: Wording, summarize: Summarizer)
    requires SummarizeHistory(text, maxChars, w, summarize).Some?
    ensures var r := SummarizeHistory(text, maxChars, w, summarize).value;
      && |r| <= maxChars
      && exists head: nat, tail: nat :: HistoryReplaced(text, w, Some(summarize), head, tail, r)
  {
    var start := Find(text, w.historyHeader, 0).value;
    var head := start + |w.historyHeader|;
    var tail := BodyEnd(text, head, w.historyEnds);
    BodyEndIsMarker(text, head, w.historyEnds);
    assert HistoryReplaced(text, w, Some(summarize), head, tail, SummarizeHistory(text, maxChars, w, summarize).value);
  }

  lemma OlderKept(text: string, maxChars: int, w: Wording, summarize: Summarizer)
    requires SummarizeOlder(text, maxChars, w, summarize).Some?
    ensures var r := SummarizeOlder(text, maxChars, w, summarize).value;
      |r| <= maxChars && EndsWith(r, Last(text, (maxChars - w.Fixed()) / 2))
  {
    var contentBudget := maxChars - w.Fixed();
    var latest := Last(text, contentBudget / 2);
    var summary := summarize(text[..|text| - |latest|]).value;
    var cut := Take(summary, Max(1, contentBudget - |latest|));
    var front := w.summarized + w.summaryHeader + cut + w.latestHeader;
    assert |front + latest| <= maxChars;
    assert (front + latest)[|front|..] == latest;
  }
}
