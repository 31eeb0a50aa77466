/** Concrete inputs on the failing side of the properties the code does not have. */
module Witnesses {
  import opened Prelude
  import opened RepoPath
  import opened Files
  import opened Dependencies
  import opened Utf8
  import Generation
  import GenerationResume
  import GenerationRuns
  import Providers
  import Scheduling
  import SchedulerConfluence
  import SessionStore
  import Subagents
  import TaskGraph

  // ---------------------------------------------------------------- stored sessions

  function Task(id: Id, dependencies: seq<Id>): TaskGraph.TaskNode {
    TaskGraph.TaskNode(id, TaskGraph.Implementer, "python", dependencies, [], [], [], [],
                       Providers.ProviderPolicy(["qwen"], [1]))
  }

  /** Nodes a and b, with b depending on what is given. */
  function Pair(dependencies: seq<Id>): TaskGraph.TaskGraph {
    TaskGraph.TaskGraph([Task("a", []), Task("b", dependencies)], 1)
  }

  lemma PairLookup(dependencies: seq<Id>)
    ensures TaskGraph.ById(Pair(dependencies).nodes) == map["a" := Task("a", []), "b" := Task("b", dependencies)]
    ensures TaskGraph.DependencyMap(Pair(dependencies)) == map["a" := {}, "b" := Elements(dependencies)]
  {
    var nodes := Pair(dependencies).nodes;
    assert nodes[..1] == [Task("a", [])] && nodes[..1][..0] == [];
    assert TaskGraph.ById(nodes[..1]) == map["a" := Task("a", [])];
    var none: seq<Id> := [];
    assert Elements(none) == {};
  }

  lemma OneEdgeAcyclic(m: DepMap)
    requires m == map["a" := {}, "b" := {"a"}] || m == map["a" := {}, "b" := {}]
    ensures Acyclic(m)
  {
    forall n ensures !DependsOn(m, n, n) {
      if DependsOn(m, n, n) {
        DependsOnFirstStep(m, n, n);
        var c :| c in m[n] && (c == n || DependsOn(m, c, n));
        DependsOnFirstStep(m, c, n);
      }
    }
  }

  lemma PairValid(dependencies: seq<Id>)
    requires dependencies == [] || dependencies == ["a"]
    ensures TaskGraph.ValidGraph(Pair(dependencies))
    ensures SessionStore.NodeIds(Pair(dependencies)) == {"a", "b"}
  {
    PairLookup(dependencies);
    assert Elements(dependencies) == if dependencies == [] then {} else {"a"};
    OneEdgeAcyclic(TaskGraph.DependencyMap(Pair(dependencies)));
  }

  /** A session over the pair in the given states, nothing approved. */
  function PairRecord(dependencies: seq<Id>, states: Scheduling.States): SessionStore.Record {
    SessionStore.Create(Pair(dependencies)).(nodeStates := states)
  }

  lemma PairSound(dependencies: seq<Id>, states: Scheduling.States)
    requires (dependencies == [] || dependencies == ["a"]) && states.Keys == {"a", "b"}
    ensures SessionStore.Sound(PairRecord(dependencies, states))
  {
    PairValid(dependencies);
    hide TaskGraph.ValidGraph, SessionStore.NodeIds, Pair;
  }

  /** Revising to a graph with the same nodes keeps the states. */
  lemma SameNodesRevised(s: SessionStore.Record, graph: TaskGraph.TaskGraph, reason: string)
    requires s.revision.WellFormed() && s.nodeStates.Keys == SessionStore.NodeIds(graph)
    ensures SessionStore.ReviseRecord(s, graph, reason).nodeStates == s.nodeStates
  {
    hide SessionStore.NodeIds;
  }

  lemma PairFields(dependencies: seq<Id>, states: Scheduling.States)
    ensures var s := PairRecord(dependencies, states);
      s.revision.WellFormed() && s.revision.graph == Pair(dependencies) && s.nodeStates == states
  {
    hide SessionStore.NodeIds, Pair;
  }

  lemma PairClosed(dependencies: seq<Id>, states: Scheduling.States)
    requires (dependencies == [] || dependencies == ["a"]) && states.Keys == {"a", "b"}
    ensures Scheduling.ClosedStates(TaskGraph.DependencyMap(Pair(dependencies)), states) <==>
      dependencies == [] || states["b"] != Scheduling.Succeeded || states["a"] == Scheduling.Succeeded
  {
    PairLookup(dependencies);
    var m := TaskGraph.DependencyMap(Pair(dependencies));
    assert dependencies == ["a"] ==> "a" in m["b"];
    hide TaskGraph.DependencyMap, TaskGraph.ById;
  }

  /** b has succeeded; then a revision makes it depend on a, which is still pending. */
  lemma RevisionLeavesSucceededOpen()
    ensures var s := PairRecord([], map["a" := Scheduling.Pending, "b" := Scheduling.Succeeded]);
      var next := Pair(["a"]);
      && SessionStore.Sound(s) && TaskGraph.ValidGraph(next)
      && Scheduling.ClosedStates(TaskGraph.DependencyMap(s.revision.graph), s.nodeStates)
      && !Scheduling.ClosedStates(TaskGraph.DependencyMap(next), SessionStore.ReviseRecord(s, next, "more").nodeStates)
  {
    var st := map["a" := Scheduling.Pending, "b" := Scheduling.Succeeded];
    assert st.Keys == {"a", "b"} && st["b"] == Scheduling.Succeeded && st["a"] != Scheduling.Succeeded;
    assert [] != ["a"];
    hide *;
    PairValid(["a"]);
    PairSound([], st);
    PairClosed([], st);
    PairClosed(["a"], st);
    PairFields([], st);
    SameNodesRevised(PairRecord([], st), Pair(["a"]), "more");
  }

  /** A recorded attempt puts its state at the node. */
  lemma AttemptState(s: SessionStore.Record, node: Id)
    requires s.revision.WellFormed() && node in s.nodeStates
    ensures var op := SessionStore.RecordAttempt(node, Scheduling.Succeeded, "qwen");
      && SessionStore.Apply(s, op).Success?
      && SessionStore.After(s, op).nodeStates == s.nodeStates[node := Scheduling.Succeeded]
  {
    hide SessionStore.AttemptsOf;
  }

  /** A success recorded for b while its dependency a is pending. */
  lemma AttemptLeavesSucceededOpen()
    ensures var s := PairRecord(["a"], map["a" := Scheduling.Pending, "b" := Scheduling.Pending]);
      var op := SessionStore.RecordAttempt("b", Scheduling.Succeeded, "qwen");
      var m := TaskGraph.DependencyMap(s.revision.graph);
      && SessionStore.Sound(s) && SessionStore.Apply(s, op).Success?
      && Scheduling.ClosedStates(m, s.nodeStates) && !Scheduling.ClosedStates(m, SessionStore.After(s, op).nodeStates)
  {
    var st := map["a" := Scheduling.Pending, "b" := Scheduling.Pending];
    PairSound(["a"], st);
    PairClosed(["a"], st);
    PairClosed(["a"], st["b" := Scheduling.Succeeded]);
    PairFields(["a"], st);
    hide *;
    AttemptState(PairRecord(["a"], st), "b");
  }

  /** a and b have failed and block c, which depends on both. */
  function Fallen(): Scheduling.States {
    map["a" := Scheduling.Failed, "b" := Scheduling.Failed, "c" := Scheduling.Blocked]
  }

  lemma FallenFacts(m: DepMap)
    requires m == map["a" := {}, "b" := {}, "c" := {"a", "b"}]
    ensures DependsOn(m, "c", "a") && SessionStore.OtherCause(m, Fallen(), "c", "a")
    ensures Scheduling.ClosedStates(m, Fallen()) && SessionStore.BlockedJustified(m, Fallen())
  {
    DependsOnDirect(m, "c", "a");
    DependsOnDirect(m, "c", "b");
    hide DependsOn;
    assert Fallen()["b"] == Scheduling.Failed && "a" in m["c"] && Scheduling.Bad(Fallen()["a"]);
  }

  /**
   * Retrying a resets c, which its comment would not since b blocks c too, and the next run that returns without a
   * cancel blocks c again.
   */
  lemma RetryResetsOtherwiseBlocked(w: Scheduling.Workload, good: set<Id>, final: Scheduling.States)
    requires Scheduling.ValidWorkload(w) && w.deps == map["a" := {}, "b" := {}, "c" := {"a", "b"}]
    ensures SessionStore.RetryStates(w.deps, Fallen(), "a")["c"] == Scheduling.Pending
    ensures SessionStore.SolelyBlockedStates(w.deps, Fallen(), "a")["c"] == Scheduling.Blocked
    ensures SchedulerConfluence.Verdict(w, SessionStore.RetryStates(w.deps, Fallen(), "a"), good, final) ==>
      final["c"] == Scheduling.Blocked
  {
    FallenFacts(w.deps);
    hide DependsOn, SessionStore.OtherCause, SchedulerConfluence.Verdict, Scheduling.ValidWorkload,
      Scheduling.ClosedStates, SessionStore.BlockedJustified;
    if SchedulerConfluence.Verdict(w, SessionStore.RetryStates(w.deps, Fallen(), "a"), good, final) {
      SessionStore.OtherCauseBlocksAgain(w, Fallen(), "a", "c", good, final);
    }
  }

  // ---------------------------------------------------------------- subagent merges

  lemma ShortBytes()
    ensures Decode([120]) == Some("x") && Decode([121]) == Some("y") && Decode([255]) == None
    ensures Decode([97, 13, 10]) == Some("a\r\n") && Decode([98, 10]) == Some("b\n") && Decode([97, 10]) == Some("a\n")
  {
    DecodeAscii(120, []);
    DecodeAscii(121, []);
    DecodeAscii(10, []);
    DecodeAscii(13, [10]);
    DecodeAscii(97, [13, 10]);
    DecodeAscii(98, [10]);
    DecodeAscii(97, [10]);
    assert [120] + [] == [120] && [121] + [] == [121] && [10] + [] == [10] && [13] + [10] == [13, 10];
    assert [97] + [13, 10] == [97, 13, 10] && [98] + [10] == [98, 10] && [97] + [10] == [97, 10];
    hide DecodeChar;
    assert [120 as char] + "" == "x" && [121 as char] + "" == "y" && [10 as char] + "" == "\n";
    assert [13 as char] + "\n" == "\r\n" && [97 as char] + "\r\n" == "a\r\n";
    assert [98 as char] + "\n" == "b\n" && [97 as char] + "\n" == "a\n";
  }

  /** Short texts and what they are read as. */
  lemma ShortTexts()
    ensures ReadText([120]) == Some("x") && ReadText([121]) == Some("y") && Encode("x") == [120] && Encode("y") == [121]
    ensures ReadText([97, 13, 10]) == Some("a\n") && ReadText([98, 10]) == Some("b\n")
    ensures Encode("a\n") == [97, 10] && Encode("b\n") == [98, 10]
    ensures ReadText([255]) == None
  {
    ShortBytes();
    hide Decode;
    EncodeDecode([120]);
    EncodeDecode([121]);
    EncodeDecode([97, 10]);
    EncodeDecode([98, 10]);
    hide Encode;
    assert "\r\n"[2..] == "" && "\n"[1..] == "" && "a\r\n"[1..] == "\r\n" && "b\n"[1..] == "\n";
    assert Universal("\r\n") == "\n" && Universal("\n") == "\n";
    UniversalIff("x");
    UniversalIff("y");
    UniversalIff("b\n");
    assert Universal("a\r\n") == ['a'] + Universal("\r\n") && ['a'] + "\n" == "a\n";
  }

  /** The repository got a directory at b; the stopped merge of new files a and b has written a. */
  lemma StoppedMergeLeavesHalf()
    ensures
      var files: FileMap := map["b" := Directory];
      var workspace: FileMap := map["a" := File([120]), "b" := File([121])];
      var d := Subagents.SubagentDiff(["a", "b"], map["a" := Some("x"), "b" := Some("y")],
                                      map["a" := Missing, "b" := Missing]);
      && Subagents.IsDiff(d, map[], workspace) && Subagents.Fresh(files, d) && !Subagents.Merges(files, d)
      && Subagents.AfterMerge(files, d) == map["a" := File([120]), "b" := Directory]
  {
    var files: FileMap := map["b" := Directory];
    var paths := ["a", "b"];
    ShortTexts();
    hide ReadText, Encode;
    assert Elements(paths) == {"a", "b"} && paths[1] == "b";
    assert paths[1..] == ["b"] && paths[..1] == ["a"] && Elements(["a"]) == {"a"};
    assert Subagents.Writable(files, ["b"]) == 0;
    assert Subagents.Writable(files, paths) == 1;
    hide Subagents.Writable;
  }

  /** The proposal of one changed file f. */
  function OneFile(text: string, base: seq<Byte>): Subagents.SubagentDiff {
    Subagents.SubagentDiff(["f"], map["f" := Some(text)], map["f" := Sha256(base)])
  }

  lemma OneFileDiffers(base: seq<Byte>, content: seq<Byte>)
    requires base != content && ReadText(content).Some?
    ensures Subagents.IsDiff(OneFile(ReadText(content).value, base), map["f" := File(base)], map["f" := File(content)])
    ensures Subagents.Merges(map["f" := File(base)], OneFile(ReadText(content).value, base))
    ensures Subagents.AfterMerge(map["f" := File(base)], OneFile(ReadText(content).value, base))
      == map["f" := File(Encode(ReadText(content).value))]
  {
    hide ReadText, Encode;
    var files: FileMap := map["f" := File(base)];
    assert Elements(["f"]) == {"f"} && ["f"][1..] == [] && ["f"][..1] == ["f"];
    assert Subagents.Writable(files, ["f"]) == 1;
    hide Subagents.Writable;
  }

  /**
   * Over "a" and a line feed one subagent writes "a", a carriage return and a line feed, another "b" and a line
   * feed. The first merge changes nothing, and the second goes through.
   */
  lemma CarriageReturnLost()
    ensures
      var base: FileMap := map["f" := File([97, 10])];
      var first, second: FileMap := map["f" := File([97, 13, 10])], map["f" := File([98, 10])];
      var a, b := OneFile("a\n", [97, 10]), OneFile("b\n", [97, 10]);
      && Subagents.IsDiff(a, base, first) && Subagents.IsDiff(b, base, second)
      && Subagents.Merges(base, a) && Subagents.AfterMerge(base, a) == base && base != first
      && Subagents.Merges(Subagents.AfterMerge(base, a), b) && Subagents.AfterMerge(base, b) == second
  {
    ShortTexts();
    OneFileDiffers([97, 10], [97, 13, 10]);
    OneFileDiffers([97, 10], [98, 10]);
    hide *;
    assert [97, 10][1] == 10 && [97, 13, 10][1] == 13;
  }

  /** A new file whose one byte is no text keeps the whole proposal from being made. */
  lemma BytecodeRaises()
    ensures var workspace: FileMap := map["m" := File([255])];
      Subagents.Differs(map[], workspace, "m") && !Subagents.Legible(workspace, "m")
  {
    ShortTexts();
    hide ReadText;
  }

  /** A workspace that makes a file "target" never merges into a repository that has one. */
  lemma IgnoredNameRefused(d: Subagents.SubagentDiff, built: seq<Byte>, made: seq<Byte>)
    requires Subagents.IsDiff(d, Subagents.Copied(map["target" := File(built)]), map["target" := File(made)])
    ensures !Subagents.Merges(map["target" := File(built)], d)
  {
    SplitOfPlain("target");
    assert "target" in Split("target") && Subagents.Ignored("target");
    Subagents.IgnoredNeverMerges(map["target" := File(built)], d, map["target" := File(made)], "target");
  }

  // ---------------------------------------------------------------- generation runs

  const IDLE_PROMPTS := Generation.Prompts(
    p => p, p => p, (d, r, e, w, p, a) => p, (d, r, e, p, a) => p, (p, m) => p, p => p, p => p,
    (p, d, r, t) => p, (p, t, d) => p)

  /** Every draft fails the policy; the small worker answers as given, and the peer as given. */
  function Failing(small: Generation.Supplier, stagnant: bool,
                   peer: Option<(nat, Generation.Trigger, Generation.Draft) -> Option<string>>): Generation.Controller
  {
    Generation.Controller(
      3, (t, d) => "", (e, demoted) => Generation.Static(false, false, ""), None, None, d => true,
      (t, d) => Generation.Gate(true, ""), (a, r) => "", e => stagnant, r => None, e => "", (d, n) => false,
      r => false, a => "", attempts => None, None, IDLE_PROMPTS, p => Some("x"), small, None, None, false,
      (d, e) => None, s => None, (d, p) => None, peer, 1, None)
  }

  /** The small worker gives its draft back: the run ends stagnant, the resumed one validates that draft again. */
  lemma RecordedStagnationDisagrees()
    ensures
      var c := Failing((t, d, p) => Some(d), false, None);
      var s := Generation.Fresh([], "x", Generation.DraftSupplier, []);
      && GenerationRuns.GoodState(c, s, 0) && GenerationResume.NothingCarried(c, s)
      && !GenerationResume.RecordedAgrees(c, "", s, 0)
  {
    var c := Failing((t, d, p) => Some(d), false, None);
    var s := Generation.Fresh([], "x", Generation.DraftSupplier, []);
    GenerationResume.RecordedAgreesIff(c, "", s, 0);
  }

  /** The worker always stagnates and the peer always has a hint, but one consultation is allowed. */
  function Hinted(): Generation.Controller {
    Failing((t, d, p) => Some(d + "x"), true, Some((t, why, d) => Some("hint")))
  }

  lemma HintTaken(s: Generation.State, t: nat)
    requires s.consulted == 0 && s.source != Generation.Architect && !s.source.Constrained() && t < 3
    ensures Generation.Judge(Hinted(), "", s, t).state.consulted == 1
    ensures Generation.Judge(Hinted(), "", s, t).attempt.memos != []
    ensures Generation.Judge(Hinted(), "", s, t).routing.Some?
    ensures Generation.Judge(Hinted(), "", s, t).routing.value.worker == Generation.SmallWorker
    ensures Generation.Judge(Hinted(), "", s, t).forced.None?
    ensures var a := Generation.Judge(Hinted(), "", s, t).attempt; a.draft == s.draft && !a.report.Passed()
    ensures Generation.Judge(Hinted(), "", s, t).state.draft == s.draft
  {
  }

  lemma HintedContinues(j: Generation.Judged, t: nat)
    requires j.attempt.memos != [] && j.routing.Some? && j.routing.value.worker == Generation.SmallWorker
    requires j.forced.None? && !j.attempt.report.Passed()
    ensures var o := Generation.Decide(Hinted(), "", t, j);
      && o.Continue? && o.next.consulted == j.state.consulted && o.next.draft == j.state.draft + "x"
      && o.next.source == Generation.SmallWorker
  {
    var (reply, scheduled) := Generation.CallWorker(
      Hinted(), t, j.state.draft, j.attempt.retryPrompt, Generation.SmallWorker, None, j.state.scheduled);
    assert reply == Generation.Drafted(j.state.draft + "x", Generation.SmallWorker);
    hide Generation.CallWorker, Generation.AfterStagnation, Generation.Consult;
  }

  /** What is left after the first attempt: one hint spent, another draft to validate. */
  predicate HintSpent(next: Generation.State) {
    && next.consulted == 1 && next.draft == "xx" && next.source == Generation.SmallWorker
    && next.attempts == next.failed
  }

  lemma FirstHint()
    ensures var s := Generation.Fresh([], "x", Generation.DraftSupplier, []);
      var o := Generation.Decide(Hinted(), "", 0, Generation.Judge(Hinted(), "", s, 0));
      && o.Continue? && HintSpent(o.next)
      && Generation.RunFrom(Hinted(), "", s, 0).session == Generation.RunFrom(Hinted(), "", o.next, 1).session
  {
    var s := Generation.Fresh([], "x", Generation.DraftSupplier, []);
    assert GenerationRuns.GoodState(Hinted(), s, 0) && Hinted().maxRetries == 3;
    hide Hinted, Generation.Judge, Generation.Decide, Generation.RunFrom;
    HintTaken(s, 0);
    var j := Generation.Judge(Hinted(), "", s, 0);
    HintedContinues(j, 0);
    GenerationRuns.StepKeeps(Hinted(), "", s, 0);
    GenerationRuns.RunUnfolds(Hinted(), "", s, 0);
  }

  lemma SecondHint(next: Generation.State)
    requires HintSpent(next)
    ensures Generation.RunFrom(Hinted(), "", next.(consulted := 0), 1).consulted >= 1
  {
    var anew := next.(consulted := 0);
    assert Hinted().maxRetries == 3;
    HintTaken(anew, 1);
    hide Hinted, Generation.Judge, Generation.Decide, Generation.RunFrom;
    GenerationResume.RunKeeps(Hinted(), "", anew, 1);
    GenerationResume.MemosStay(Hinted(), "", Generation.Judge(Hinted(), "", anew, 1), 1);
  }

  /** With its one hint spent, a state resumes into another run. */
  lemma SpentResumesApart(next: Generation.State)
    requires HintSpent(next)
    ensures
      var resumed := Generation.Resume(Hinted(), "", Generation.Ready(next, 0), next.scheduled);
      resumed.Success? && resumed.value.session != Generation.RunFrom(Hinted(), "", next, 1).session
  {
    var anew := next.(consulted := 0);
    SecondHint(next);
    assert Hinted().peerLimit == 1 && GenerationResume.Told(anew, 1) == next;
    GenerationResume.ReadyIsState(Hinted(), "", next, 0);
    hide Hinted, Generation.RunFrom, Generation.Resume, Generation.Ready;
    GenerationResume.ForgottenConsultations(Hinted(), "", anew, 1, 1);
  }

  /** Resumed after its first attempt, the run gets a second hint, which it never got uninterrupted. */
  lemma ResumedBeyondBudget()
    ensures
      var s := Generation.Fresh([], "x", Generation.DraftSupplier, []);
      var o := Generation.Decide(Hinted(), "", 0, Generation.Judge(Hinted(), "", s, 0));
      && o.Continue?
      && (var resumed := Generation.Resume(Hinted(), "", Generation.Ready(o.next, 0), o.next.scheduled);
          resumed.Success? && resumed.value.session != Generation.RunFrom(Hinted(), "", s, 0).session)
  {
    hide *;
    FirstHint();
    var s := Generation.Fresh([], "x", Generation.DraftSupplier, []);
    SpentResumesApart(Generation.Decide(Hinted(), "", 0, Generation.Judge(Hinted(), "", s, 0)).next);
  }
}
