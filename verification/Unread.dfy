/** The unread counter of the inbox when a buyer's messages and the operator's reading overlap
    (backend/app/services/chat_service.py): both read the conversation without a lock and write its counter
    later. */
module Unread {
  import opened Rows
  import opened ChatMerge

  type WorkerId = nat

  /** What a session holds between its statements and its commit: the counter as it was read, and for a reader
      the messages its statement marked. */
  datatype Worker =
    | Recorder(conv: ConvId, seen: nat)
    | Reader(conv: ConvId, seen: nat)
    | Marker(conv: ConvId, seen: nat, marked: set<MessageId>)

  datatype State = State(convs: Conversations, messages: Messages, workers: map<WorkerId, Worker>)

  datatype Action =
    | EventRead(w: WorkerId, c: ConvId)
    | EventCommit(w: WorkerId, source: SourceId, fromMe: bool, text: string, window: seq<MessageId>, now: Time, id: MessageId)
    | OpenRead(w: WorkerId, c: ConvId)
    | MarkRows(w: WorkerId)
    | ReadCommit(w: WorkerId)
    | Reply(c: ConvId, text: string, now: Time, id: MessageId)
    | Drop(w: WorkerId)

  predicate Pending(ms: Messages, c: ConvId, m: MessageId) { m in ms && ms[m].conv == c && !ms[m].incoming && ms[m].pending }

  predicate Enabled(s: State, a: Action) {
    match a
    case EventRead(w, c) => w !in s.workers && c in s.convs
    case EventCommit(w, _, _, _, window, _, id) =>
      w in s.workers && s.workers[w].Recorder? && s.workers[w].conv in s.convs && id !in s.messages
      && forall m :: m in window ==> Pending(s.messages, s.workers[w].conv, m)
    case OpenRead(w, c) => w !in s.workers && c in s.convs
    case MarkRows(w) => w in s.workers && s.workers[w].Reader?
    case ReadCommit(w) => w in s.workers && s.workers[w].Marker? && s.workers[w].conv in s.convs
    case Reply(c, _, _, id) => c in s.convs && id !in s.messages
    case Drop(w) => true
  }

  function Enter(s: State, w: WorkerId, worker: Worker): State { s.(workers := s.workers[w := worker]) }

  function Leave(s: State, w: WorkerId): State { s.(workers := s.workers - {w}) }

  function Step(s: State, a: Action): State
    requires Enabled(s, a)
  {
    match a
    case EventRead(w, c) => Enter(s, w, Recorder(c, s.convs[c].unread))
    case EventCommit(w, source, fromMe, text, window, now, id) =>
      var (convs, ms, _) := Recorded(s.convs, s.messages, s.workers[w].conv, s.workers[w].seen, source, fromMe, text, window, now, id);
      Leave(s.(convs := convs, messages := ms), w)
    case OpenRead(w, c) => Enter(s, w, Reader(c, s.convs[c].unread))
    case MarkRows(w) =>
      Enter(s, w, Marker(s.workers[w].conv, s.workers[w].seen, UnreadSet(s.messages, s.workers[w].conv)))
    case ReadCommit(w) =>
      Leave(s.(convs := Cleared(s.convs, s.workers[w].conv, s.workers[w].seen),
               messages := MarkedRead(s.messages, s.workers[w].marked)), w)
    case Reply(c, text, now, id) =>
      var m := Message(c, None, false, true, true, text, now);
      s.(convs := Summarized(s.convs, c, 0, m), messages := s.messages[id := m])
    case Drop(w) => Leave(s, w)
  }

  /** What every action does, in every state: the readings remember the stored counter, and the commits write what was
      remembered. */
  ghost predicate Follows(s: State, t: State, a: Action)
    requires Enabled(s, a)
  {
    match a
    case EventRead(w, c) => t == s.(workers := s.workers[w := Recorder(c, s.convs[c].unread)])
    case EventCommit(w, source, fromMe, text, window, now, id) =>
      && t.workers == s.workers - {w}
      && exists created ::
           Records(s.convs, t.convs, s.messages, t.messages, created, s.workers[w].conv, s.workers[w].seen, source, fromMe, text, window, now, id)
    case OpenRead(w, c) => t == s.(workers := s.workers[w := Reader(c, s.convs[c].unread)])
    case MarkRows(w) =>
      var c := s.workers[w].conv;
      && w in t.workers && t == s.(workers := s.workers[w := t.workers[w]])
      && t.workers[w].Marker? && t.workers[w].conv == c && t.workers[w].seen == s.workers[w].seen
      && forall m :: m in t.workers[w].marked
                     <==> m in s.messages && s.messages[m].conv == c && s.messages[m].incoming && !s.messages[m].read
    case ReadCommit(w) =>
      && t.workers == s.workers - {w}
      && Reads(s.convs, t.convs, s.messages, t.messages, s.workers[w].conv, s.workers[w].seen, s.workers[w].marked)
    case Reply(c, text, now, id) =>
      && t.workers == s.workers && t.messages == s.messages[id := Message(c, None, false, true, true, text, now)]
      && t.convs == s.convs[c := s.convs[c].(last := Some(Last(text, false, now)))]
    case Drop(w) => t == s.(workers := s.workers - {w})
  }

  lemma StepLaw(s: State, a: Action)
    requires Enabled(s, a)
    ensures Follows(s, Step(s, a), a)
  {
    match a
    case EventCommit(w, source, fromMe, text, window, now, id) =>
      RecordedLaw(s.convs, s.messages, s.workers[w].conv, s.workers[w].seen, source, fromMe, text, window, now, id);
    case _ =>
  }

  /** The commit of an event writes the successor of a counter that is not the stored one any more, or the commit
      of a reading clears the counter although something unread was not marked, or leaves it although something
      unread was. */
  predicate Miscounts(s: State, a: Action) {
    Enabled(s, a)
    && match a
       case EventCommit(w, source, fromMe, text, window, now, id) =>
         var c, seen := s.workers[w].conv, s.workers[w].seen;
         Recorded(s.convs, s.messages, c, seen, source, fromMe, text, window, now, id).2 && !fromMe && seen != s.convs[c].unread
       case ReadCommit(w) => !MarkedInTime(s.messages, s.workers[w].conv, s.workers[w].seen, s.workers[w].marked)
       case _ => false
  }

  /** Messages stay in their conversation, so a marker's messages are those of its conversation. */
  ghost predicate MarksOwn(s: State) {
    forall w, m :: w in s.workers && s.workers[w].Marker? && m in s.workers[w].marked && m in s.messages ==>
      s.messages[m].conv == s.workers[w].conv
  }

  ghost predicate MarksKnown(s: State) {
    forall w, m :: w in s.workers && s.workers[w].Marker? && m in s.workers[w].marked ==> m in s.messages
  }

  lemma StepMarks(s: State, a: Action)
    requires MarksOwn(s) && MarksKnown(s) && Enabled(s, a)
    ensures MarksOwn(Step(s, a)) && MarksKnown(Step(s, a))
  {
    assert forall m :: m in s.messages ==> m in Step(s, a).messages && Step(s, a).messages[m].conv == s.messages[m].conv;
  }

  /** The exact condition: an action makes a counter differ from the number of unread messages if and only if it is
      the commit of an event whose counter changed since it was read, or the commit of a reading that missed a
      message which is unread by then, or that marked one while it leaves the counter it read as zero. */
  lemma CountsExactly(s: State, a: Action)
    requires MarksOwn(s) && Counted(s.convs, s.messages) && Enabled(s, a)
    ensures Counted(Step(s, a).convs, Step(s, a).messages) <==> !Miscounts(s, a)
  {
    match a
    case EventCommit(w, source, fromMe, text, window, now, id) =>
      RecordedCounts(s.convs, s.messages, s.workers[w].conv, s.workers[w].seen, source, fromMe, text, window, now, id);
    case ReadCommit(w) =>
      MarkedCounts(s.convs, s.messages, s.workers[w].conv, s.workers[w].seen, s.workers[w].marked);
    case Reply(c, text, now, id) =>
      SummaryCounts(s.convs, s.messages, c, 0, Message(c, None, false, true, true, text, now), id);
    case _ =>
  }

  /** Nobody in between: an event that commits right after its reading counts. */
  lemma EventAlone(s: State, w: WorkerId, c: ConvId, commit: Action)
    requires Enabled(s, EventRead(w, c)) && commit.EventCommit? && commit.w == w
    ensures !Miscounts(Step(s, EventRead(w, c)), commit)
  {
  }

  /** And so does a reading. */
  lemma ReadingAlone(s: State, w: WorkerId, c: ConvId)
    requires Enabled(s, OpenRead(w, c)) && Counted(s.convs, s.messages)
    ensures var t := Step(Step(s, OpenRead(w, c)), MarkRows(w)); Enabled(t, ReadCommit(w)) && !Miscounts(t, ReadCommit(w))
  {
    assert CountedOk(s.convs, s.messages, c);
    if s.convs[c].unread == 0 {
      assert UnreadSet(s.messages, c) == {};
    }
  }

  // ---- Runs -------------------------------------------------------------------------------------

  ghost predicate Initial(s: State) { s.messages == map[] && s.workers == map[] && forall c :: c in s.convs ==> s.convs[c].unread == 0 }

  ghost predicate IsRun(states: seq<State>, actions: seq<Action>) {
    |states| == |actions| + 1 && Initial(states[0])
    && forall i :: 0 <= i < |actions| ==> Enabled(states[i], actions[i]) && states[i + 1] == Step(states[i], actions[i])
  }

  lemma {:induction false} RunMarks(states: seq<State>, actions: seq<Action>, n: nat)
    requires IsRun(states, actions) && n <= |actions|
    ensures MarksOwn(states[n]) && MarksKnown(states[n])
  {
    if n > 0 {
      RunMarks(states, actions, n - 1);
      StepMarks(states[n - 1], actions[n - 1]);
    }
  }

  ghost predicate AlwaysCounted(states: seq<State>, n: nat)
    requires n < |states|
  {
    forall i :: 0 <= i <= n ==> Counted(states[i].convs, states[i].messages)
  }

  ghost predicate NoneMiscounts(states: seq<State>, actions: seq<Action>, n: nat)
    requires n <= |actions| && n <= |states|
  {
    forall i :: 0 <= i < n ==> !Miscounts(states[i], actions[i])
  }

  lemma StartsCounted(s: State)
    requires Initial(s)
    ensures Counted(s.convs, s.messages)
  {
    forall c | c in s.convs
      ensures CountedOk(s.convs, s.messages, c)
    {
      assert UnreadSet(s.messages, c) == {};
    }
  }

  /** Over whole runs of overlapping events, readings and replies: every counter is exact throughout if and only if
      no commit of the run miscounts. */
  lemma {:induction false} CountedOverRun(states: seq<State>, actions: seq<Action>, n: nat)
    requires IsRun(states, actions) && n <= |actions|
    ensures AlwaysCounted(states, n) <==> NoneMiscounts(states, actions, n)
  {
    if n == 0 {
      StartsCounted(states[0]);
    } else {
      CountedOverRun(states, actions, n - 1);
      assert NoneMiscounts(states, actions, n) <==> NoneMiscounts(states, actions, n - 1) && !Miscounts(states[n - 1], actions[n - 1]);
      assert AlwaysCounted(states, n) <==> AlwaysCounted(states, n - 1) && Counted(states[n].convs, states[n].messages);
      if AlwaysCounted(states, n - 1) {
        RunMarks(states, actions, n - 1);
        CountsExactly(states[n - 1], actions[n - 1]);
      }
    }
  }

  // ---- What goes wrong --------------------------------------------------------------------------

  datatype Run = Run(states: seq<State>, actions: seq<Action>)

  lemma Then(r: Run, a: Action) returns (r': Run)
    requires IsRun(r.states, r.actions) && Enabled(r.states[|r.actions|], a)
    ensures IsRun(r'.states, r'.actions) && |r'.actions| == |r.actions| + 1
    ensures r'.states[|r'.actions|] == Step(r.states[|r.actions|], a)
  {
    r' := Run(r.states + [Step(r.states[|r.actions|], a)], r.actions + [a]);
    forall i | 0 <= i < |r'.actions|
      ensures Enabled(r'.states[i], r'.actions[i]) && r'.states[i + 1] == Step(r'.states[i], r'.actions[i])
    {
      if i < |r.actions| {
        assert r'.states[i] == r.states[i] && r'.states[i + 1] == r.states[i + 1] && r'.actions[i] == r.actions[i];
      }
    }
  }

  /** One conversation with this counter, these messages and these sessions. */
  function Chat(unread: nat, last: Option<Last>, ms: Messages, workers: map<WorkerId, Worker>): State {
    State(map[0 := Conversation(Remote(7), Some(1), true, unread, last)], ms, workers)
  }

  function Incoming(source: SourceId): Message { NewMessage(0, source, false, "hi", source) }

  function Hi(at: Time): Option<Last> { Some(Last("hi", true, at)) }

  lemma BeginChat() returns (r: Run)
    ensures IsRun(r.states, r.actions) && r.states[|r.actions|] == Chat(0, None, map[], map[])
  {
    r := Run([Chat(0, None, map[], map[])], []);
  }

  /** A first message has come and was counted. */
  function OneUnread(workers: map<WorkerId, Worker>): State { Chat(1, Hi(1), map[1 := Incoming(1)], workers) }

  predicate Commits(s: State, w: WorkerId, k: SourceId, t: State) {
    var a := EventCommit(w, k, false, "hi", [], k, k);
    Enabled(s, a) && Step(s, a) == t
  }

  lemma FirstCommits(workers: map<WorkerId, Worker>, w: WorkerId)
    requires w in workers && workers[w] == Recorder(0, 0)
    ensures Commits(Chat(0, None, map[], workers), w, 1, OneUnread(workers - {w}))
  {
  }

  lemma SecondCommits(workers: map<WorkerId, Worker>, w: WorkerId, seen: nat)
    requires w in workers && workers[w] == Recorder(0, seen)
    ensures Commits(OneUnread(workers), w, 2, Chat(seen + 1, Hi(2), map[1 := Incoming(1), 2 := Incoming(2)], workers - {w}))
  {
    assert !HasSource(map[1 := Incoming(1)], 0, 2);
  }

  /** Two events read the counter before either commits: two unread messages, and the counter says one. */
  lemma EventsLoseOne() returns (r: Run)
    ensures IsRun(r.states, r.actions)
    ensures var s := r.states[|r.actions|]; 0 in s.convs && s.convs[0].unread == 1 && |UnreadSet(s.messages, 0)| == 2
  {
    r := BeginChat();
    var both := map[1 := Recorder(0, 0), 2 := Recorder(0, 0)];
    r := Then(r, EventRead(1, 0));
    r := Then(r, EventRead(2, 0));
    assert r.states[|r.actions|] == Chat(0, None, map[], both);
    FirstCommits(both, 1);
    r := Then(r, EventCommit(1, 1, false, "hi", [], 1, 1));
    SecondCommits(both - {1}, 2, 0);
    r := Then(r, EventCommit(2, 2, false, "hi", [], 2, 2));
    assert UnreadSet(map[1 := Incoming(1), 2 := Incoming(2)], 0) == {1, 2};
  }

  /** The operator opens the chat with one unread message, the statement marks it, a second message is recorded and
      counted, and the reading clears the counter: one unread message, and the counter says none. */
  lemma ReadingLosesOne() returns (r: Run)
    ensures IsRun(r.states, r.actions)
    ensures var s := r.states[|r.actions|]; 0 in s.convs && s.convs[0].unread == 0 && |UnreadSet(s.messages, 0)| == 1
  {
    r := OneMessage();
    r := Then(r, OpenRead(3, 0));
    r := Then(r, MarkRows(3));
    assert UnreadSet(map[1 := Incoming(1)], 0) == {1};
    var reading := map[3 := Marker(0, 1, {1})];
    assert r.states[|r.actions|] == OneUnread(reading);
    r := Then(r, EventRead(2, 0));
    var both := reading[2 := Recorder(0, 1)];
    assert r.states[|r.actions|] == OneUnread(both);
    SecondCommits(both, 2, 1);
    r := Then(r, EventCommit(2, 2, false, "hi", [], 2, 2));
    ReadCommits(both - {2});
    r := Then(r, ReadCommit(3));
  }

  lemma OneMessage() returns (r: Run)
    ensures IsRun(r.states, r.actions) && r.states[|r.actions|] == OneUnread(map[])
  {
    r := BeginChat();
    r := Then(r, EventRead(1, 0));
    assert r.states[|r.actions|] == Chat(0, None, map[], map[1 := Recorder(0, 0)]);
    FirstCommits(map[1 := Recorder(0, 0)], 1);
    r := Then(r, EventCommit(1, 1, false, "hi", [], 1, 1));
    assert map[1 := Recorder(0, 0)] - {1} == map[];
  }

  lemma ReadCommits(workers: map<WorkerId, Worker>)
    requires 3 in workers && workers[3] == Marker(0, 1, {1})
    ensures var s := Chat(2, Hi(2), map[1 := Incoming(1), 2 := Incoming(2)], workers);
            Enabled(s, ReadCommit(3)) && var t := Step(s, ReadCommit(3));
            0 in t.convs && t.convs[0].unread == 0 && |UnreadSet(t.messages, 0)| == 1
  {
    var s := Chat(2, Hi(2), map[1 := Incoming(1), 2 := Incoming(2)], workers);
    assert UnreadSet(Step(s, ReadCommit(3)).messages, 0) == {2};
  }

  /** The operator opens an empty chat, a message is recorded and counted, and the statement marks it: the counter
      was read as zero and is not written, so nothing is unread and the counter says one. */
  lemma ReadingLeavesOne() returns (r: Run)
    ensures IsRun(r.states, r.actions)
    ensures var s := r.states[|r.actions|]; 0 in s.convs && s.convs[0].unread == 1 && UnreadSet(s.messages, 0) == {}
  {
    r := BeginChat();
    r := Then(r, OpenRead(3, 0));
    r := Then(r, EventRead(1, 0));
    var both := map[3 := Reader(0, 0), 1 := Recorder(0, 0)];
    assert r.states[|r.actions|] == Chat(0, None, map[], both);
    FirstCommits(both, 1);
    r := Then(r, EventCommit(1, 1, false, "hi", [], 1, 1));
    assert both - {1} == map[3 := Reader(0, 0)];
    r := Then(r, MarkRows(3));
    assert UnreadSet(map[1 := Incoming(1)], 0) == {1};
    r := Then(r, ReadCommit(3));
    assert UnreadSet(MarkedRead(map[1 := Incoming(1)], {1}), 0) == {};
  }
}
