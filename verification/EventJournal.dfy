/** The append-only journal file and the handles that write to it. */
module EventJournal {
  import opened Prelude

  type SessionId(==,!new) = string

  datatype JournalEvent = JournalEvent(sequence: nat, session: SessionId, eventType: string)

  datatype JournalError = SequenceOrSessionMismatch

  /** A verified read accepts: the k-th event is numbered k and belongs to the session. */
  predicate Readable(events: seq<JournalEvent>, session: SessionId) {
    forall i :: 0 <= i < |events| ==> events[i].sequence == i + 1 && events[i].session == session
  }

  /** `events.jsonl`: shared by every handle on the same root. */
  class JournalFile {
    var events: seq<JournalEvent>

    constructor ()
      ensures events == []
    {
      events := [];
    }
  }

  class EventJournal {
    const file: JournalFile
    const session: SessionId
    var sequence: nat

    /** The tail of the constructor, after the verified read has succeeded. */
    constructor (file: JournalFile, session: SessionId)
      ensures this.file == file && this.session == session
      ensures sequence == LastSequence(file.events)
    {
      this.file, this.session := file, session;
      sequence := LastSequence(file.events);
    }

    method Append(eventType: string) returns (event: JournalEvent)
      modifies this`sequence, file`events
      ensures sequence == old(sequence) + 1
      ensures event == JournalEvent(sequence, session, eventType)
      ensures file.events == old(file.events) + [event]
      ensures Readable(file.events, session) <==>
        Readable(old(file.events), session) && old(sequence) == old(|file.events|)
    {
      sequence := sequence + 1;
      event := JournalEvent(sequence, session, eventType);
      file.events := file.events + [event];
      AppendReadable(old(file.events), event, session);
    }

    /** The generator: what it yields before it ends or raises. */
    method Read(verify: bool) returns (yielded: seq<JournalEvent>, error: Option<JournalError>)
      ensures error.None? <==> !verify || Readable(file.events, session)
      ensures error.None? ==> yielded == file.events
      ensures yielded <= file.events
      ensures error.Some? ==> Readable(yielded, session) && !Readable(file.events[..|yielded| + 1], session)
    {
      yielded := [];
      var expected := 1;
      for i := 0 to |file.events|
        invariant expected == i + 1 && yielded == file.events[..i]
        invariant verify ==> Readable(yielded, session)
      {
        var event := file.events[i];
        if verify && (event.sequence != expected || event.session != session) {
          assert file.events[..i + 1][i] == event;
          return yielded, Some(SequenceOrSessionMismatch);
        }
        expected := expected + 1;
        yielded := yielded + [event];
      }
      return yielded, None;
    }
  }

  function LastSequence(events: seq<JournalEvent>): nat {
    if events == [] then 0 else events[|events| - 1].sequence
  }

  /** `EventJournal(root, session)`: raises when the file on disk does not read back. */
  method Open(file: JournalFile, session: SessionId) returns (r: Result<EventJournal, JournalError>)
    ensures r.Success? <==> Readable(file.events, session)
    ensures r.Success? ==> fresh(r.value) && r.value.file == file && r.value.session == session
    ensures r.Success? ==> r.value.sequence == |file.events|
  {
    var journal := new EventJournal(file, session);
    var events, error := journal.Read(true);
    if error.Some? {
      return Failure(error.value);
    }
    return Success(journal);
  }

  lemma AppendReadable(events: seq<JournalEvent>, event: JournalEvent, session: SessionId)
    ensures Readable(events + [event], session) <==>
      Readable(events, session) && event.sequence == |events| + 1 && event.session == session
  {
    var longer := events + [event];
    assert longer[|events|] == event;
    assert forall i :: 0 <= i < |events| ==> longer[i] == events[i];
  }

  /** What a handle that has numbered `from` events appends next, `count` events one after another. */
  function Appended(session: SessionId, from: nat, count: nat): (r: seq<JournalEvent>)
    ensures |r| == count
  {
    if count == 0 then []
    else Appended(session, from, count - 1) + [JournalEvent(from + count, session, "session_event")]
  }

  /** The file stays readable exactly when the handle stood at its end, or appends nothing. */
  lemma {:induction false} AppendedReadable(events: seq<JournalEvent>, session: SessionId, from: nat, count: nat)
    ensures Readable(events + Appended(session, from, count), session) <==>
      Readable(events, session) && (count == 0 || from == |events|)
  {
    var longer := events + Appended(session, from, count);
    if count == 0 {
      assert longer == events;
    } else {
      AppendedReadable(events, session, from, count - 1);
      var before, event := Appended(session, from, count - 1), JournalEvent(from + count, session, "session_event");
      AppendReadable(events + before, event, session);
      assert events + before + [event] == longer;
    }
  }

  // ---------------------------------------------------------------- any number of handles, any interleaving

  datatype Handle = Handle(session: SessionId, sequence: nat)

  datatype World = World(events: seq<JournalEvent>, handles: map<nat, Handle>)

  /** What a process may do: open a journal under a new name, or append through one it holds. */
  datatype Action = Opens(name: nat, session: SessionId) | Appends(name: nat, eventType: string)

  /** One action; opening an unreadable file raises, and appending needs a handle. */
  function Act(w: World, a: Action): World {
    match a
    case Opens(name, session) =>
      if Readable(w.events, session) then
        w.(handles := w.handles[name := Handle(session, LastSequence(w.events))])
      else w
    case Appends(name, eventType) =>
      if name in w.handles then
        var h := w.handles[name];
        World(w.events + [JournalEvent(h.sequence + 1, h.session, eventType)],
              w.handles[name := h.(sequence := h.sequence + 1)])
      else w
  }

  function ActAll(w: World, actions: seq<Action>): World {
    if actions == [] then w else Act(ActAll(w, actions[..|actions| - 1]), actions[|actions| - 1])
  }

  const NEW_FILE := World([], map[])

  /** The append goes through a handle of the session that stands at the end of the file. */
  predicate AtEnd(w: World, a: Action, session: SessionId) {
    a.Appends? && a.name in w.handles ==>
      w.handles[a.name].session == session && w.handles[a.name].sequence == |w.events|
  }

  /** Every append of the run went through a handle standing at the end of the file at that moment. */
  predicate AlwaysAtEnd(actions: seq<Action>, session: SessionId) {
    forall k :: 0 <= k < |actions| ==> AtEnd(ActAll(NEW_FILE, actions[..k]), actions[k], session)
  }

  lemma AlwaysAtEndStep(actions: seq<Action>, session: SessionId)
    requires actions != []
    ensures var n := |actions| - 1;
      AlwaysAtEnd(actions, session) <==>
        AlwaysAtEnd(actions[..n], session) && AtEnd(ActAll(NEW_FILE, actions[..n]), actions[n], session)
  {
    var n := |actions| - 1;
    assert forall k :: 0 <= k <= n ==> actions[..n][..k] == actions[..k];
    assert forall k :: 0 <= k < n ==> actions[..n][k] == actions[k];
  }

  lemma ActReadable(w: World, a: Action, session: SessionId)
    ensures Readable(Act(w, a).events, session) <==> Readable(w.events, session) && AtEnd(w, a, session)
  {
    if a.Appends? && a.name in w.handles {
      var h := w.handles[a.name];
      AppendReadable(w.events, JournalEvent(h.sequence + 1, h.session, a.eventType), session);
    }
  }

  /** The journal reads back exactly when no append ever went through a handle that was behind the file. */
  lemma {:induction false} ReadableIffAlwaysAtEnd(actions: seq<Action>, session: SessionId)
    ensures Readable(ActAll(NEW_FILE, actions).events, session) <==> AlwaysAtEnd(actions, session)
  {
    if actions != [] {
      var n := |actions| - 1;
      ReadableIffAlwaysAtEnd(actions[..n], session);
      AlwaysAtEndStep(actions, session);
      ActReadable(ActAll(NEW_FILE, actions[..n]), actions[n], session);
      assert ActAll(NEW_FILE, actions) == Act(ActAll(NEW_FILE, actions[..n]), actions[n]);
      hide *;
    }
  }

  /** The name of the handle opened last. */
  function Newest(actions: seq<Action>): Option<nat> {
    if actions == [] then None
    else
      var last := actions[|actions| - 1];
      if last.Opens? then Some(last.name) else Newest(actions[..|actions| - 1])
  }

  /** One writer that may reopen: each append uses the handle opened last, and every open is for the session. */
  predicate SingleWriter(actions: seq<Action>, session: SessionId) {
    forall k :: 0 <= k < |actions| ==>
      match actions[k]
      case Opens(_, s) => s == session
      case Appends(name, _) => Newest(actions[..k]) == Some(name)
  }

  predicate Synchronized(w: World, newest: Option<nat>, session: SessionId) {
    && Readable(w.events, session)
    && (newest.Some? ==> newest.value in w.handles && w.handles[newest.value] == Handle(session, |w.events|))
  }

  lemma {:induction false} SingleWriterReadable(actions: seq<Action>, session: SessionId)
    requires SingleWriter(actions, session)
    ensures Synchronized(ActAll(NEW_FILE, actions), Newest(actions), session)
  {
    if actions != [] {
      var n := |actions| - 1;
      var before, a := ActAll(NEW_FILE, actions[..n]), actions[n];
      assert forall k :: 0 <= k < n ==> actions[..n][..k] == actions[..k];
      SingleWriterReadable(actions[..n], session);
      if a.Appends? {
        AppendReadable(before.events, JournalEvent(|before.events| + 1, session, a.eventType), session);
      }
    }
  }

  /** What any process does next never repairs the file, and no journal for the session opens on it again. */
  lemma {:induction false} CorruptForever(w: World, actions: seq<Action>, session: SessionId)
    requires !Readable(w.events, session)
    ensures w.events <= ActAll(w, actions).events
    ensures !Readable(ActAll(w, actions).events, session)
    ensures forall name :: Act(ActAll(w, actions), Opens(name, session)) == ActAll(w, actions)
  {
    if actions != [] {
      CorruptForever(w, actions[..|actions| - 1], session);
    }
  }

  /**
   * A handle kept open across another's append spoils the file for good. This is a session whose runtime holds
   * its journal while the store writes an event of its own.
   */
  lemma StaleHandleCorrupts(w: World, held: nat, other: nat, first: string, second: string, session: SessionId,
                            later: seq<Action>)
    requires Synchronized(w, Some(held), session) && held != other
    ensures var spoilt := ActAll(w, [Opens(other, session), Appends(other, first), Appends(held, second)]);
      !Readable(ActAll(spoilt, later).events, session)
  {
    var run := [Opens(other, session), Appends(other, first), Appends(held, second)];
    assert run[..2][..1] == [run[0]] && run[..2][1] == run[1] && [run[0]][..0] == [];
    var reopened := Act(w, run[0]);
    var appended := Act(reopened, run[1]);
    assert ActAll(w, [run[0]]) == reopened;
    assert ActAll(w, run[..2]) == appended;
    var spoilt := ActAll(w, run);
    assert spoilt == Act(appended, run[2]);
    var n := |w.events|;
    assert spoilt.events[n + 1].sequence == n + 1;
    CorruptForever(spoilt, later, session);
  }
}
