/** The buyer chats behind the inbox: rebinding and merging (backend/app/services/sale_registry.py) and the
    unread counter (backend/app/services/chat_service.py). */
module ChatMerge {
  import opened Rows

  type ConvId = nat
  type MessageId = nat
  type ChatId = nat
  type BuyerId = nat
  type SourceId = nat
  type SaleId = nat

  /** A chat id of the marketplace, or the key under which foreign history is put away. */
  datatype ChatKey = Remote(chat: ChatId) | Quarantine(conv: ConvId)

  datatype Last = Last(text: string, incoming: bool, at: Time)

  datatype Conversation = Conversation(chat: ChatKey, buyer: Option<BuyerId>, verified: bool, unread: nat, last: Option<Last>)

  /** `source` is the marketplace's message id, which an unsent or unmatched reply does not have. */
  datatype Message = Message(
    conv: ConvId, source: Option<SourceId>, incoming: bool, read: bool, pending: bool, text: string, at: Time)

  /** `managed` says that the sale is bound to an order of the bot; an order's rental carries its own copy of
      the chat. */
  datatype Sale = Sale(buyer: BuyerId, chat: Option<ChatKey>, managed: bool)
  datatype BoundOrder = BoundOrder(buyer: BuyerId, chat: ChatKey, exact: bool, rentalChat: Option<ChatKey>)

  type Messages = map<MessageId, Message>
  type Conversations = map<ConvId, Conversation>

  // ---- Counting ---------------------------------------------------------------------------------

  predicate UnreadIn(m: Message, c: ConvId) { m.conv == c && m.incoming && !m.read }

  function UnreadSet(ms: Messages, c: ConvId): set<MessageId> { set m | m in ms && UnreadIn(ms[m], c) }

  lemma UnreadSetLaw(ms: Messages, c: ConvId)
    ensures UnreadSet(ms, c) == set m | m in ms && ms[m].conv == c && ms[m].incoming && !ms[m].read
  {
  }

  predicate CountedOk(convs: Conversations, ms: Messages, c: ConvId)
    requires c in convs
  {
    convs[c].unread == |UnreadSet(ms, c)|
  }

  /** The counter of every conversation is the number of its unread incoming messages. */
  ghost predicate Counted(convs: Conversations, ms: Messages) {
    forall c :: c in convs ==> CountedOk(convs, ms, c)
  }

  ghost predicate ChatsUnique(convs: Conversations) {
    && (forall c, d :: c in convs && d in convs && c != d ==> convs[c].chat != convs[d].chat)
    && (forall c :: c in convs && convs[c].chat.Quarantine? ==> convs[c].chat.conv == c)
  }

  /** A conversation holds a source id at most once. */
  ghost predicate SourcesUnique(ms: Messages) {
    forall m, n :: m in ms && n in ms && m != n && ms[m].conv == ms[n].conv && ms[m].source.Some? ==> ms[m].source != ms[n].source
  }

  // ---- Merging ----------------------------------------------------------------------------------

  predicate HasSource(ms: Messages, c: ConvId, source: SourceId) {
    exists m :: m in ms && ms[m].conv == c && ms[m].source == Some(source)
  }

  function MovedFrom(m: Message, from: set<ConvId>, target: ConvId): Message {
    if m.conv in from then m.(conv := target) else m
  }

  /** `after` is `before` with the conversations `from` emptied into `target`: nothing is invented or altered,
      only second copies of a source id are dropped, and every source id is still there. */
  ghost predicate Merged(before: Messages, after: Messages, from: set<ConvId>, target: ConvId) {
    && (forall m :: m in after ==> m in before && after[m] == MovedFrom(before[m], from, target))
    && (forall m :: m in before && before[m].conv !in from ==> m in after)
    && (forall m :: m in before && before[m].source.None? ==> m in after)
    && (forall m :: m in before && before[m].conv in from && before[m].source.Some? ==> HasSource(after, target, before[m].source.value))
    && SourcesUnique(after)
  }

  predicate Knows(ms: Messages, target: ConvId, known: set<SourceId>) {
    (forall s: SourceId :: s in known ==> HasSource(ms, target, s))
    && (forall m :: m in ms && ms[m].conv == target && ms[m].source.Some? ==> ms[m].source.value in known)
  }

  /** The messages `done` of the emptied conversation have been moved or dropped, the others not yet. */
  ghost predicate PartlyMerged(before: Messages, ms: Messages, done: set<MessageId>, target: ConvId) {
    && (forall m :: m in ms ==> m in before && ms[m] == if m in done then before[m].(conv := target) else before[m])
    && (forall m :: m in before && (m !in done || before[m].source.None?) ==> m in ms)
    && (forall m :: m in before && m in done && before[m].source.Some? ==> HasSource(ms, target, before[m].source.value))
    && SourcesUnique(ms)
  }

  lemma SourceStays(ms: Messages, ms': Messages, target: ConvId)
    requires forall m :: m in ms && ms[m].conv == target ==> m in ms' && ms'[m] == ms[m]
    ensures forall s: SourceId :: HasSource(ms, target, s) ==> HasSource(ms', target, s)
  {
  }

  lemma OneDropped(before: Messages, ms: Messages, done: set<MessageId>, known: set<SourceId>, m: MessageId, target: ConvId)
    requires PartlyMerged(before, ms, done, target) && Knows(ms, target, known)
    requires m in before && m !in done && before[m].conv != target
    requires before[m].source.Some? && before[m].source.value in known
    ensures PartlyMerged(before, ms - {m}, done + {m}, target) && Knows(ms - {m}, target, known)
  {
  }

  lemma MoveKeepsKnown(ms: Messages, known: set<SourceId>, m: MessageId, target: ConvId)
    requires Knows(ms, target, known) && m in ms && ms[m].conv != target
    ensures forall s: SourceId :: HasSource(ms, target, s) ==> HasSource(ms[m := ms[m].(conv := target)], target, s)
    ensures ms[m].source.Some? ==> HasSource(ms[m := ms[m].(conv := target)], target, ms[m].source.value)
    ensures Knows(ms[m := ms[m].(conv := target)], target, if ms[m].source.Some? then known + {ms[m].source.value} else known)
  {
    var ms' := ms[m := ms[m].(conv := target)];
    SourceStays(ms, ms', target);
    if ms[m].source.Some? {
      assert ms'[m].conv == target && ms'[m].source == ms[m].source;
      assert HasSource(ms', target, ms[m].source.value);
    }
  }

  lemma OneMoved(before: Messages, ms: Messages, done: set<MessageId>, known: set<SourceId>, m: MessageId, target: ConvId)
    requires PartlyMerged(before, ms, done, target) && Knows(ms, target, known)
    requires m in before && m !in done && before[m].conv != target && m in ms && ms[m] == before[m]
    requires before[m].source.Some? ==> before[m].source.value !in known
    ensures PartlyMerged(before, ms[m := ms[m].(conv := target)], done + {m}, target)
  {
  }

  /** The messages of the conversation are those still to be moved and those done. */
  ghost predicate Divided(before: Messages, source: ConvId, rest: set<MessageId>, done: set<MessageId>) {
    rest !! done && forall m :: m in rest + done <==> m in before && before[m].conv == source
  }

  lemma DividedNext(before: Messages, source: ConvId, rest: set<MessageId>, done: set<MessageId>, m: MessageId)
    requires Divided(before, source, rest, done) && m in rest
    ensures m in before && before[m].conv == source && m !in done && Divided(before, source, rest - {m}, done + {m})
  {
    assert (rest - {m}) + (done + {m}) == rest + done;
  }

  lemma NothingMerged(ms: Messages, target: ConvId)
    requires SourcesUnique(ms)
    ensures PartlyMerged(ms, ms, {}, target)
  {
  }

  lemma FullyMerged(before: Messages, ms: Messages, source: ConvId, target: ConvId, done: set<MessageId>)
    requires PartlyMerged(before, ms, done, target) && forall m :: m in done <==> m in before && before[m].conv == source
    ensures Merged(before, ms, {source}, target)
  {
  }

  lemma KnowsAll(ms: Messages, target: ConvId, known: set<SourceId>)
    requires known == set m | m in ms && ms[m].conv == target && ms[m].source.Some? :: ms[m].source.value
    ensures Knows(ms, target, known)
  {
  }

  /** A conversation that takes no part keeps its unread messages. */
  lemma MergedElsewhere(before: Messages, after: Messages, from: set<ConvId>, target: ConvId, c: ConvId)
    requires Merged(before, after, from, target) && c !in from && c != target
    ensures UnreadSet(after, c) == UnreadSet(before, c)
  {
  }

  lemma MergedMore(before: Messages, mid: Messages, after: Messages, from: set<ConvId>, other: ConvId, target: ConvId)
    requires target !in from && other != target && other !in from
    requires Merged(before, mid, from, target) && Merged(mid, after, {other}, target)
    ensures Merged(before, after, from + {other}, target)
  {
    forall s: SourceId | HasSource(mid, target, s)
      ensures HasSource(after, target, s)
    {
      var m :| m in mid && mid[m].conv == target && mid[m].source == Some(s);
      assert m in after && after[m] == mid[m];
    }
    forall m | m in before && before[m].conv == other && before[m].source.Some?
      ensures HasSource(after, target, before[m].source.value)
    {
      assert m in mid && mid[m] == before[m];
    }
  }

  // ---- Rebinding --------------------------------------------------------------------------------

  ghost predicate ExactlySold(sales: map<SaleId, Sale>, c: Conversation) {
    exists s :: s in sales && sales[s].managed && sales[s].chat == Some(c.chat) && Some(sales[s].buyer) == c.buyer
  }

  ghost predicate FirstOfBuyer(convs: Conversations, listing: seq<ConvId>, buyer: BuyerId, c: ConvId)
    requires forall d :: d in listing ==> d in convs
  {
    exists i :: 0 <= i < |listing| && listing[i] == c && convs[c].buyer == Some(buyer)
                && forall j :: 0 <= j < i ==> convs[listing[j]].buyer != Some(buyer)
  }

  function LastOf(m: Message): Last { Last(m.text, m.incoming, m.at) }

  predicate NotLater(ms: Messages, m: MessageId, n: MessageId)
    requires m in ms && n in ms
  {
    ms[m].at < ms[n].at || (ms[m].at == ms[n].at && m <= n)
  }

  ghost predicate IsLatest(ms: Messages, c: ConvId, last: Option<Last>) {
    match last
    case None => forall m :: m in ms ==> ms[m].conv != c
    case Some(l) => exists n :: n in ms && ms[n].conv == c && l == LastOf(ms[n])
                                && forall m :: m in ms && ms[m].conv == c ==> NotLater(ms, m, n)
  }

  ghost function SalePointed(s: Sale, buyer: BuyerId, chat: ChatId): Sale {
    if s.buyer == buyer && s.managed then s.(chat := Some(Remote(chat))) else s
  }

  ghost function OrderPointed(o: BoundOrder, buyer: BuyerId, chat: ChatId): BoundOrder {
    if o.buyer == buyer && o.exact
    then o.(chat := Remote(chat), rentalChat := if o.rentalChat.Some? then Some(Remote(chat)) else None)
    else o
  }

  /** The buyer's managed sales, bound orders and their rentals end on the chat; nobody else's are touched. */
  ghost predicate Repointed(sales: map<SaleId, Sale>, sales': map<SaleId, Sale>,
                            orders: map<OrderId, BoundOrder>, orders': map<OrderId, BoundOrder>, buyer: BuyerId, chat: ChatId)
  {
    && sales'.Keys == sales.Keys && (forall s :: s in sales ==> sales'[s] == SalePointed(sales[s], buyer, chat))
    && orders'.Keys == orders.Keys && (forall o :: o in orders ==> orders'[o] == OrderPointed(orders[o], buyer, chat))
  }

  ghost predicate TakenByAnother(c: Conversation, buyer: BuyerId, chat: ChatId) {
    c.chat == Remote(chat) && c.buyer.Some? && c.buyer != Some(buyer)
  }

  /** The conversation that already has the chat id if the sale proves it, else the buyer's most recently
      active one, else a new one. */
  ghost predicate Chosen(convs: Conversations, listing: seq<ConvId>, buyer: BuyerId, chat: ChatId, newId: ConvId, target: ConvId)
    requires forall d :: d in listing ==> d in convs
  {
    if exists c :: c in listing && convs[c].chat == Remote(chat) then target in listing && convs[target].chat == Remote(chat)
    else if exists c :: c in listing && convs[c].buyer == Some(buyer) then FirstOfBuyer(convs, listing, buyer, target)
    else target == newId
  }

  /** The conversations after the chat id changed hands: the target has it, an unproven former holder is
      quarantined, and no other row is touched. */
  ghost predicate Taken(convs: Conversations, convs': Conversations, listing: seq<ConvId>, buyer: BuyerId, chat: ChatId,
                        newId: ConvId, target: ConvId)
    requires forall d :: d in listing ==> d in convs
  {
    && Chosen(convs, listing, buyer, chat, newId, target)
    && convs'.Keys == convs.Keys + {target}
    && convs'[target].chat == Remote(chat) && convs'[target].buyer == Some(buyer) && convs'[target].verified
    && (forall c :: c in convs && c != target ==>
          convs'[c] == if convs[c].chat == Remote(chat) then convs[c].(chat := Quarantine(c), verified := false) else convs[c])
  }

  lemma TakenKeepsUnique(convs: Conversations, convs': Conversations, listing: seq<ConvId>, buyer: BuyerId, chat: ChatId,
                         newId: ConvId, target: ConvId)
    requires ChatsUnique(convs) && forall d :: d in listing ==> d in convs
    requires Taken(convs, convs', listing, buyer, chat, newId, target)
    ensures ChatsUnique(convs')
  {
  }

  /** The buyer's other proven conversations. */
  predicate MergeSet(convs: Conversations, listing: seq<ConvId>, buyer: BuyerId, target: ConvId, merged: set<ConvId>)
    requires forall d :: d in listing ==> d in convs
  {
    (forall c :: c in merged ==> c in listing)
    && forall c :: c in listing ==> (c in merged <==> c != target && convs[c].buyer == Some(buyer))
  }

  lemma MergeSetNext(convs: Conversations, listing: seq<ConvId>, buyer: BuyerId, target: ConvId, merged: set<ConvId>, k: nat)
    requires forall d :: d in listing ==> d in convs
    requires forall i, j :: 0 <= i < j < |listing| ==> listing[i] != listing[j]
    requires k < |listing| && MergeSet(convs, listing[..k], buyer, target, merged)
    ensures listing[k] !in merged
    ensures MergeSet(convs, listing[..k + 1], buyer, target,
                     if listing[k] != target && convs[listing[k]].buyer == Some(buyer) then merged + {listing[k]} else merged)
  {
  }

  /** The conversations after a rebinding: chat ids are unique, the target has the chat, the buyer, and a
      summary of its messages, the merged ones are gone, and the others keep everything but, for an unproven
      former holder of the chat, its key and its standing. */
  ghost predicate Rebound(convs: Conversations, convs': Conversations, ms': Messages, buyer: BuyerId, chat: ChatId,
                          target: ConvId, merged: set<ConvId>)
  {
    && ChatsUnique(convs') && target !in merged && convs'.Keys == convs.Keys + {target} - merged
    && convs'[target].chat == Remote(chat) && convs'[target].buyer == Some(buyer) && convs'[target].verified
    && convs'[target].unread == |UnreadSet(ms', target)| && IsLatest(ms', target, convs'[target].last)
    && forall c :: c in convs' && c != target ==>
         convs'[c] == if convs[c].chat == Remote(chat) then convs[c].(chat := Quarantine(c), verified := false) else convs[c]
  }

  lemma SameMergeSet(convs: Conversations, taken: Conversations, listing: seq<ConvId>, buyer: BuyerId, chat: ChatId,
                     newId: ConvId, target: ConvId, merged: set<ConvId>)
    requires forall d :: d in listing ==> d in convs && d in taken
    requires Taken(convs, taken, listing, buyer, chat, newId, target)
    requires MergeSet(taken, listing, buyer, target, merged)
    ensures MergeSet(convs, listing, buyer, target, merged)
  {
  }

  lemma ReboundFrom(convs: Conversations, taken: Conversations, convs': Conversations, ms': Messages, listing: seq<ConvId>,
                    buyer: BuyerId, chat: ChatId, newId: ConvId, target: ConvId, merged: set<ConvId>)
    requires forall d :: d in listing ==> d in convs && d in taken
    requires Taken(convs, taken, listing, buyer, chat, newId, target) && ChatsUnique(taken)
    requires MergeSet(taken, listing, buyer, target, merged)
    requires target in convs' && convs' == (taken - merged)[target := taken[target].(unread := convs'[target].unread, last := convs'[target].last)]
    requires convs'[target].unread == |UnreadSet(ms', target)| && IsLatest(ms', target, convs'[target].last)
    ensures Rebound(convs, convs', ms', buyer, chat, target, merged)
  {
  }

  lemma StillCounted(convs: Conversations, ms: Messages, convs': Conversations, ms': Messages, buyer: BuyerId, chat: ChatId,
                     target: ConvId, merged: set<ConvId>)
    requires Rebound(convs, convs', ms', buyer, chat, target, merged) && Merged(ms, ms', merged, target)
    ensures Counted(convs, ms) ==> Counted(convs', ms')
  {
    if Counted(convs, ms) {
      forall c | c in convs'
        ensures CountedOk(convs', ms', c)
      {
        if c != target {
          MergedElsewhere(ms, ms', merged, target, c);
          assert CountedOk(convs, ms, c);
        }
      }
    }
  }

  // ---- The inbox --------------------------------------------------------------------------------

  function NewMessage(c: ConvId, source: SourceId, fromMe: bool, text: string, now: Time): Message {
    Message(c, Some(source), !fromMe, fromMe, false, text, now)
  }

  /** The marketplace's echo of a reply that was stored before its id was known. */
  function Echoed(m: Message, source: SourceId): Message { m.(source := Some(source), pending := false, read := true) }

  ghost predicate Arrived(convs: Conversations, convs': Conversations, ms: Messages, ms': Messages, c: ConvId, m: Message, id: MessageId) {
    && c in convs && ms' == ms[id := m]
    && convs' == convs[c := convs[c].(unread := convs[c].unread + (if m.incoming && !m.read then 1 else 0), last := Some(LastOf(m)))]
  }

  lemma ArrivalKeepsCounts(convs: Conversations, ms: Messages, c: ConvId, m: Message, id: MessageId)
    requires c in convs && id !in ms && m.conv == c
    ensures Counted(convs, ms) ==>
              Counted(convs[c := convs[c].(unread := convs[c].unread + (if m.incoming && !m.read then 1 else 0), last := Some(LastOf(m)))],
                      ms[id := m])
  {
    var convs' := convs[c := convs[c].(unread := convs[c].unread + (if m.incoming && !m.read then 1 else 0), last := Some(LastOf(m)))];
    if Counted(convs, ms) {
      forall d | d in convs'
        ensures CountedOk(convs', ms[id := m], d)
      {
        assert CountedOk(convs, ms, d);
        assert UnreadSet(ms[id := m], d) == if UnreadIn(m, d) then UnreadSet(ms, d) + {id} else UnreadSet(ms, d);
      }
    }
  }

  lemma EchoKeepsCounts(convs: Conversations, ms: Messages, m: MessageId, source: SourceId)
    requires m in ms && !ms[m].incoming
    ensures Counted(convs, ms) ==> Counted(convs, ms[m := Echoed(ms[m], source)])
  {
    if Counted(convs, ms) {
      forall d | d in convs
        ensures CountedOk(convs, ms[m := Echoed(ms[m], source)], d)
      {
        assert CountedOk(convs, ms, d);
        assert UnreadSet(ms[m := Echoed(ms[m], source)], d) == UnreadSet(ms, d);
      }
    }
  }

  /** The first pending reply of the window with this text, or the window's length. */
  function FirstEcho(ms: Messages, window: seq<MessageId>, text: string, from: nat): (k: nat)
    requires from <= |window| && forall m :: m in window ==> m in ms
    ensures from <= k <= |window|
    ensures k < |window| ==> ms[window[k]].text == text
    ensures forall i :: from <= i < k ==> ms[window[i]].text != text
    decreases |window| - from
  {
    if from == |window| || ms[window[from]].text == text then from else FirstEcho(ms, window, text, from + 1)
  }

  /** The summary after a message; `seen` is the counter as it was read, without a lock, before. */
  function Summarized(convs: Conversations, c: ConvId, seen: nat, m: Message): Conversations
    requires c in convs
  {
    convs[c := convs[c].(unread := if m.incoming && !m.read then seen + 1 else convs[c].unread, last := Some(LastOf(m)))]
  }

  /** A message event; `window` is the newest pending replies of the conversation, newest first.  The flag says
      that a message was added. */
  function Recorded(convs: Conversations, ms: Messages, c: ConvId, seen: nat, source: SourceId, fromMe: bool, text: string,
                    window: seq<MessageId>, now: Time, id: MessageId): (Conversations, Messages, bool)
    requires c in convs && forall m :: m in window ==> m in ms
  {
    var k := FirstEcho(ms, window, text, 0);
    if HasSource(ms, c, source) then (convs, ms, false)
    else if fromMe && k < |window| then (convs, ms[window[k] := Echoed(ms[window[k]], source)], false)
    else
      var m := NewMessage(c, source, fromMe, text, now);
      (Summarized(convs, c, seen, m), ms[id := m], true)
  }

  lemma OneMore(ms: Messages, m: Message, id: MessageId, d: ConvId)
    requires id !in ms
    ensures |UnreadSet(ms[id := m], d)| == |UnreadSet(ms, d)| + if UnreadIn(m, d) then 1 else 0
  {
    assert UnreadSet(ms[id := m], d) == if UnreadIn(m, d) then UnreadSet(ms, d) + {id} else UnreadSet(ms, d);
  }

  lemma SummaryCounts(convs: Conversations, ms: Messages, c: ConvId, seen: nat, m: Message, id: MessageId)
    requires c in convs && id !in ms && m.conv == c && Counted(convs, ms)
    ensures Counted(Summarized(convs, c, seen, m), ms[id := m]) <==> (m.incoming && !m.read ==> seen == convs[c].unread)
  {
    var convs', ms' := Summarized(convs, c, seen, m), ms[id := m];
    forall d | d in convs
      ensures CountedOk(convs', ms', d) <==> d != c || (m.incoming && !m.read ==> seen == convs[c].unread)
    {
      assert CountedOk(convs, ms, d);
      OneMore(ms, m, id, d);
    }
    assert c in convs' && (CountedOk(convs', ms', c) <==> (m.incoming && !m.read ==> seen == convs[c].unread));
  }

  /** The counter stays exact in exactly these cases: nothing is added, the message is the seller's own, or the
      counter that was read is still the one stored. */
  lemma RecordedCounts(convs: Conversations, ms: Messages, c: ConvId, seen: nat, source: SourceId, fromMe: bool, text: string,
                       window: seq<MessageId>, now: Time, id: MessageId)
    requires c in convs && id !in ms && Counted(convs, ms)
    requires forall m :: m in window ==> m in ms && ms[m].conv == c && !ms[m].incoming && ms[m].pending
    ensures var (convs', ms', created) := Recorded(convs, ms, c, seen, source, fromMe, text, window, now, id);
            Counted(convs', ms') <==> (created && !fromMe ==> seen == convs[c].unread)
  {
    var k := FirstEcho(ms, window, text, 0);
    if !HasSource(ms, c, source) {
      if fromMe && k < |window| {
        EchoKeepsCounts(convs, ms, window[k], source);
      } else {
        SummaryCounts(convs, ms, c, seen, NewMessage(c, source, fromMe, text, now), id);
      }
    }
  }

  /** What an event leaves behind: nothing if its source id is known; the first pending reply of the same text if it is
      the echo of one; else a new message, read if it is the seller's own, and the summary of the conversation. */
  ghost predicate Records(convs: Conversations, convs': Conversations, ms: Messages, ms': Messages, created: bool,
                          c: ConvId, seen: nat, source: SourceId, fromMe: bool, text: string, window: seq<MessageId>, now: Time, id: MessageId)
    requires c in convs && forall m :: m in window ==> m in ms
  {
    if exists m :: m in ms && ms[m].conv == c && ms[m].source == Some(source) then !created && convs' == convs && ms' == ms
    else if fromMe && exists m :: m in window && ms[m].text == text then
      && !created && convs' == convs
      && exists k :: 0 <= k < |window| && ms[window[k]].text == text && (forall i :: 0 <= i < k ==> ms[window[i]].text != text)
                     && ms' == ms[window[k] := ms[window[k]].(source := Some(source), pending := false, read := true)]
    else
      && created && ms' == ms[id := Message(c, Some(source), !fromMe, fromMe, false, text, now)]
      && convs' == convs[c := convs[c].(unread := if fromMe then convs[c].unread else seen + 1, last := Some(Last(text, !fromMe, now)))]
  }

  lemma RecordedLaw(convs: Conversations, ms: Messages, c: ConvId, seen: nat, source: SourceId, fromMe: bool, text: string,
                    window: seq<MessageId>, now: Time, id: MessageId)
    requires c in convs && forall m :: m in window ==> m in ms
    ensures var (convs', ms', created) := Recorded(convs, ms, c, seen, source, fromMe, text, window, now, id);
            Records(convs, convs', ms, ms', created, c, seen, source, fromMe, text, window, now, id)
  {
    var k := FirstEcho(ms, window, text, 0);
    assert HasSource(ms, c, source) <==> exists m :: m in ms && ms[m].conv == c && ms[m].source == Some(source);
    assert k < |window| <==> exists m :: m in window && ms[m].text == text by {
      if k < |window| {
        assert window[k] in window;
      }
    }
  }

  lemma RecordedFacts(convs: Conversations, ms: Messages, c: ConvId, seen: nat, source: SourceId, fromMe: bool, text: string,
                      window: seq<MessageId>, now: Time, id: MessageId)
    requires c in convs && id !in ms && forall m :: m in window ==> m in ms && ms[m].conv == c && !ms[m].incoming && ms[m].pending
    ensures var (convs', ms', created) := Recorded(convs, ms, c, seen, source, fromMe, text, window, now, id);
            && (created <==> !HasSource(ms, c, source) && (!fromMe || forall m :: m in window ==> ms[m].text != text))
            && (created && (fromMe || seen == convs[c].unread) ==>
                  Arrived(convs, convs', ms, ms', c, NewMessage(c, source, fromMe, text, now), id))
            && (SourcesUnique(ms) ==> SourcesUnique(ms'))
  {
    var k := FirstEcho(ms, window, text, 0);
    assert k == |window| ==> forall m :: m in window ==> ms[m].text != text;
    assert k < |window| ==> window[k] in window;
  }

  /** The marked messages are read, the others as they were; the counter is cleared unless it was read as zero. */
  ghost predicate Reads(convs: Conversations, convs': Conversations, ms: Messages, ms': Messages, c: ConvId, seen: nat, marked: set<MessageId>)
    requires c in convs
  {
    && ms'.Keys == ms.Keys && (forall m :: m in ms ==> ms'[m] == ms[m].(read := ms[m].read || m in marked))
    && convs' == if seen == 0 then convs else convs[c := convs[c].(unread := 0)]
  }

  function MarkedRead(ms: Messages, marked: set<MessageId>): Messages {
    map m | m in ms :: if m in marked then ms[m].(read := true) else ms[m]
  }

  /** The counter is written only if the value read before was not zero already. */
  function Cleared(convs: Conversations, c: ConvId, seen: nat): Conversations
    requires c in convs
  {
    if seen == 0 then convs else convs[c := convs[c].(unread := 0)]
  }

  /** Exactly the unread incoming messages of the conversation became read. */
  ghost predicate AllRead(ms: Messages, ms': Messages, c: ConvId) {
    ms'.Keys == ms.Keys && UnreadSet(ms', c) == {} && forall m :: m in ms ==> ms'[m] == ms[m].(read := ms[m].read || UnreadIn(ms[m], c))
  }

  /** Nothing unread was missed, or, if the counter is not written, nothing unread was marked. */
  predicate MarkedInTime(ms: Messages, c: ConvId, seen: nat, marked: set<MessageId>) {
    if seen == 0 then UnreadSet(ms, c) !! marked else UnreadSet(ms, c) <= marked
  }

  lemma MarkedLeaves(ms: Messages, c: ConvId, marked: set<MessageId>)
    ensures UnreadSet(MarkedRead(ms, marked), c) == UnreadSet(ms, c) - marked
  {
  }

  lemma SetSizes(u: set<MessageId>, marked: set<MessageId>)
    ensures |u - marked| == 0 <==> u <= marked
    ensures |u - marked| == |u| <==> u !! marked
  {
    if u <= marked {
      assert u - marked == {};
    }
    if u !! marked {
      assert u - marked == u;
    }
    assert u == (u - marked) + (u * marked);
    assert |u| == |u - marked| + |u * marked|;
  }

  /** The counter stays exact exactly if the statement that marked the messages missed none of those that are
      unread when the counter is written; or, if the counter was read as zero, marked none. */
  lemma MarkedCounts(convs: Conversations, ms: Messages, c: ConvId, seen: nat, marked: set<MessageId>)
    requires c in convs && Counted(convs, ms) && forall m :: m in marked && m in ms ==> ms[m].conv == c
    ensures Counted(Cleared(convs, c, seen), MarkedRead(ms, marked)) <==> MarkedInTime(ms, c, seen, marked)
  {
    var convs', ms' := Cleared(convs, c, seen), MarkedRead(ms, marked);
    SetSizes(UnreadSet(ms, c), marked);
    forall d | d in convs
      ensures CountedOk(convs', ms', d) <==> d != c || MarkedInTime(ms, c, seen, marked)
    {
      assert CountedOk(convs, ms, d);
      MarkedLeaves(ms, d, marked);
      assert d != c ==> UnreadSet(ms, d) - marked == UnreadSet(ms, d);
    }
    assert c in convs' && (CountedOk(convs', ms', c) <==> MarkedInTime(ms, c, seen, marked));
  }

  /** The order of the query for conversations: latest activity first, silent ones last. */
  ghost predicate Before(convs: Conversations, c: ConvId, d: ConvId)
    requires c in convs && d in convs
  {
    match (convs[c].last, convs[d].last)
    case (Some(l), Some(m)) => l.at > m.at || (l.at == m.at && c > d)
    case (Some(_), None) => true
    case (None, Some(_)) => false
    case (None, None) => c > d
  }

  /** No proven conversation of the buyer was active after `target`. */
  ghost predicate MostRecent(convs: Conversations, listing: seq<ConvId>, buyer: BuyerId, target: ConvId)
    requires forall d :: d in listing ==> d in convs
  {
    && target in listing && convs[target].buyer == Some(buyer)
    && forall d :: d in listing && convs[d].buyer == Some(buyer) && d != target ==>
         convs[d].last.None? || (convs[target].last.Some? && convs[d].last.value.at <= convs[target].last.value.at)
  }

  /** In the order of the query the buyer's first conversation is the most recently active one. */
  lemma FirstIsMostRecent(convs: Conversations, listing: seq<ConvId>, buyer: BuyerId, target: ConvId)
    requires forall d :: d in listing ==> d in convs
    requires forall i, j :: 0 <= i < j < |listing| ==> Before(convs, listing[i], listing[j])
    requires FirstOfBuyer(convs, listing, buyer, target)
    ensures MostRecent(convs, listing, buyer, target)
  {
    var i :| 0 <= i < |listing| && listing[i] == target && forall j :: 0 <= j < i ==> convs[listing[j]].buyer != Some(buyer);
    forall d | d in listing && convs[d].buyer == Some(buyer) && d != target
      ensures Before(convs, target, d)
    {
      var j :| 0 <= j < |listing| && listing[j] == d;
      assert i < j;
    }
  }

  class Inbox {
    var convs: Conversations
    var messages: Messages
    var sales: map<SaleId, Sale>
    var orders: map<OrderId, BoundOrder>

    constructor ()
      ensures convs == map[] && messages == map[] && sales == map[] && orders == map[]
    {
      convs, messages, sales, orders := map[], map[], map[], map[];
    }

    /** Drops the message if the target knows its source id, and moves it otherwise. */
    method MoveMessage(m: MessageId, target: ConvId, known: set<SourceId>, ghost before: Messages, ghost done: set<MessageId>)
      returns (all: set<SourceId>)
      requires PartlyMerged(before, messages, done, target) && Knows(messages, target, known)
      requires m in before && m !in done && before[m].conv != target
      modifies this`messages
      ensures PartlyMerged(before, messages, done + {m}, target) && Knows(messages, target, all)
    {
      assert m in messages && messages[m] == before[m];
      var id := messages[m].source;
      if id.Some? && id.value in known {
        OneDropped(before, messages, done, known, m, target);
        messages := messages - {m};
        return known;
      }
      OneMoved(before, messages, done, known, m, target);
      MoveKeepsKnown(messages, known, m, target);
      messages := messages[m := messages[m].(conv := target)];
      return if id.Some? then known + {id.value} else known;
    }

    /** Moves the messages of the conversation `source`; `known` are the source ids the target holds. */
    method MoveMessages(source: ConvId, target: ConvId, known: set<SourceId>) returns (all: set<SourceId>)
      requires source != target && SourcesUnique(messages)
      requires Knows(messages, target, known)
      modifies this`messages
      ensures Merged(old(messages), messages, {source}, target)
      ensures Knows(messages, target, all)
    {
      all := known;
      ghost var before, done: set<MessageId> := messages, {};
      var rest := set m | m in messages && messages[m].conv == source;
      NothingMerged(messages, target);
      while rest != {}
        invariant Divided(before, source, rest, done)
        invariant PartlyMerged(before, messages, done, target) && Knows(messages, target, all)
        decreases |rest|
      {
        var m :| m in rest;
        DividedNext(before, source, rest, done, m);
        all := MoveMessage(m, target, all, before, done);
        rest, done := rest - {m}, done + {m};
      }
      FullyMerged(before, messages, source, target, done);
    }

    // ---- Rebinding ------------------------------------------------------------------------------

    /** What the query for the conversations of the buyer and of the chat returns, newest activity first. */
    ghost predicate Listed(listing: seq<ConvId>, buyer: BuyerId, chat: ChatId)
      reads this
    {
      && (forall i, j :: 0 <= i < j < |listing| ==> listing[i] != listing[j])
      && (forall c :: c in listing <==>
            c in convs && convs[c].verified && ExactlySold(sales, convs[c])
            && (convs[c].chat == Remote(chat) || convs[c].buyer == Some(buyer)))
      && (forall i, j :: 0 <= i < j < |listing| ==> Before(convs, listing[i], listing[j]))
    }

    method FindChat(listing: seq<ConvId>, chat: ChatId) returns (r: Option<ConvId>)
      requires forall c :: c in listing ==> c in convs
      ensures r.None? <==> forall c :: c in listing ==> convs[c].chat != Remote(chat)
      ensures r.Some? ==> r.value in listing && convs[r.value].chat == Remote(chat)
    {
      for k := 0 to |listing|
        invariant forall i :: 0 <= i < k ==> convs[listing[i]].chat != Remote(chat)
      {
        if convs[listing[k]].chat == Remote(chat) {
          return Some(listing[k]);
        }
      }
      return None;
    }

    method FindBuyer(listing: seq<ConvId>, buyer: BuyerId) returns (r: Option<ConvId>)
      requires forall c :: c in listing ==> c in convs
      ensures r.None? <==> forall c :: c in listing ==> convs[c].buyer != Some(buyer)
      ensures r.Some? ==> FirstOfBuyer(convs, listing, buyer, r.value)
    {
      for k := 0 to |listing|
        invariant forall i :: 0 <= i < k ==> convs[listing[i]].buyer != Some(buyer)
      {
        if convs[listing[k]].buyer == Some(buyer) {
          return Some(listing[k]);
        }
      }
      return None;
    }

    method CountUnread(c: ConvId) returns (unread: nat)
      ensures unread == |UnreadSet(messages, c)|
    {
      unread := 0;
      var rest := messages.Keys;
      while rest != {}
        invariant rest <= messages.Keys
        invariant unread == |UnreadSet(messages, c) - rest|
        decreases |rest|
      {
        var m :| m in rest;
        ghost var seen := UnreadSet(messages, c) - rest;
        rest := rest - {m};
        if UnreadIn(messages[m], c) {
          assert UnreadSet(messages, c) - rest == seen + {m};
          unread := unread + 1;
        } else {
          assert UnreadSet(messages, c) - rest == seen;
        }
      }
      assert UnreadSet(messages, c) - rest == UnreadSet(messages, c);
    }

    method LatestOf(c: ConvId) returns (last: Option<Last>)
      ensures IsLatest(messages, c, last)
      ensures last.None? <==> forall m :: m in messages ==> messages[m].conv != c
      ensures last.Some? ==>
                exists n :: n in messages && messages[n].conv == c
                            && last.value == Last(messages[n].text, messages[n].incoming, messages[n].at)
                            && forall m :: m in messages && messages[m].conv == c ==>
                                 messages[m].at < messages[n].at || (messages[m].at == messages[n].at && m <= n)
    {
      var latest: Option<MessageId> := None;
      var rest := messages.Keys;
      while rest != {}
        invariant rest <= messages.Keys
        invariant latest.None? ==> forall m :: m in messages && m !in rest ==> messages[m].conv != c
        invariant latest.Some? ==> latest.value in messages && messages[latest.value].conv == c
        invariant latest.Some? ==>
                    forall m :: m in messages && m !in rest && messages[m].conv == c ==> NotLater(messages, m, latest.value)
        decreases |rest|
      {
        var m :| m in rest;
        rest := rest - {m};
        if messages[m].conv == c && (latest.None? || NotLater(messages, latest.value, m)) {
          latest := Some(m);
        }
      }
      last := if latest.None? then None else Some(LastOf(messages[latest.value]));
    }

    method PointSales(buyer: BuyerId, chat: ChatId)
      modifies this`sales, this`orders
      ensures Repointed(old(sales), sales, old(orders), orders, buyer, chat)
      ensures sales.Keys == old(sales).Keys && orders.Keys == old(orders).Keys
      ensures forall s :: s in sales ==>
                sales[s] == if old(sales)[s].buyer == buyer && old(sales)[s].managed
                            then old(sales)[s].(chat := Some(Remote(chat))) else old(sales)[s]
      ensures forall o :: o in orders ==>
                orders[o] == if old(orders)[o].buyer == buyer && old(orders)[o].exact && old(orders)[o].rentalChat.Some?
                             then old(orders)[o].(chat := Remote(chat), rentalChat := Some(Remote(chat)))
                             else if old(orders)[o].buyer == buyer && old(orders)[o].exact then old(orders)[o].(chat := Remote(chat))
                             else old(orders)[o]
    {
      var restSales := sales.Keys;
      while restSales != {}
        invariant sales.Keys == old(sales).Keys && restSales <= sales.Keys && orders == old(orders)
        invariant forall s :: s in sales ==> sales[s] == if s in restSales then old(sales)[s] else SalePointed(old(sales)[s], buyer, chat)
        decreases |restSales|
      {
        var s :| s in restSales;
        restSales := restSales - {s};
        if sales[s].buyer == buyer && sales[s].managed {
          sales := sales[s := sales[s].(chat := Some(Remote(chat)))];
        }
      }
      ghost var pointed := sales;
      var rest := orders.Keys;
      while rest != {}
        invariant sales == pointed
        invariant orders.Keys == old(orders).Keys && rest <= orders.Keys
        invariant forall o :: o in orders ==> orders[o] == if o in rest then old(orders)[o] else OrderPointed(old(orders)[o], buyer, chat)
        decreases |rest|
      {
        var o :| o in rest;
        rest := rest - {o};
        if orders[o].buyer == buyer && orders[o].exact {
          orders := orders[o := orders[o].(chat := Remote(chat))];
          if orders[o].rentalChat.Some? {
            orders := orders[o := orders[o].(rentalChat := Some(Remote(chat)))];
          }
        }
      }
    }

    method Occupant(chat: ChatId) returns (r: Option<ConvId>)
      ensures r.None? <==> forall c :: c in convs ==> convs[c].chat != Remote(chat)
      ensures r.Some? ==> r.value in convs && convs[r.value].chat == Remote(chat)
    {
      if exists c :: c in convs && convs[c].chat == Remote(chat) {
        var c :| c in convs && convs[c].chat == Remote(chat);
        return Some(c);
      }
      return None;
    }

    /** Everything the rebinding writes before it touches messages: foreign history is put away, and the
        conversation that takes the chat id is found or created. */
    method TakeChat(listing: seq<ConvId>, buyer: BuyerId, chat: ChatId, newId: ConvId) returns (ok: bool, target: ConvId)
      requires ChatsUnique(convs) && newId !in convs && forall c :: c in listing ==> c in convs
      modifies this`convs
      ensures !ok <==> exists c :: c in old(convs) && TakenByAnother(old(convs)[c], buyer, chat)
      ensures !ok ==> convs == old(convs)
      ensures ok ==> Taken(old(convs), convs, listing, buyer, chat, newId, target)
    {
      var current := FindChat(listing, chat);
      var occupied := Occupant(chat);
      if occupied.Some? && convs[occupied.value].buyer != None && convs[occupied.value].buyer != Some(buyer) {
        return false, 0;
      }
      assert forall c :: c in convs ==> !TakenByAnother(convs[c], buyer, chat);
      var first := FindBuyer(listing, buyer);
      if occupied.Some? && current == None {
        var id := occupied.value;
        convs := convs[id := convs[id].(chat := Quarantine(id), verified := false)];
      }
      ok := true;
      if current.Some? {
        target := current.value;
      } else if first.Some? {
        target := first.value;
      } else {
        target := newId;
        convs := convs[newId := Conversation(Remote(chat), Some(buyer), true, 0, None)];
      }
      convs := convs[target := convs[target].(chat := Remote(chat), buyer := Some(buyer), verified := true)];
    }

    method MergeOthers(listing: seq<ConvId>, buyer: BuyerId, target: ConvId) returns (ghost merged: set<ConvId>)
      requires SourcesUnique(messages) && target in convs && forall c :: c in listing ==> c in convs
      requires forall i, j :: 0 <= i < j < |listing| ==> listing[i] != listing[j]
      modifies this`convs, this`messages
      ensures Merged(old(messages), messages, merged, target)
      ensures MergeSet(old(convs), listing, buyer, target, merged) && convs == old(convs) - merged
    {
      merged := {};
      var known := set m | m in messages && messages[m].conv == target && messages[m].source.Some? :: messages[m].source.value;
      KnowsAll(messages, target, known);
      for k := 0 to |listing|
        invariant Knows(messages, target, known)
        invariant MergeSet(old(convs), listing[..k], buyer, target, merged)
        invariant convs == old(convs) - merged
        invariant Merged(old(messages), messages, merged, target)
      {
        var c := listing[k];
        MergeSetNext(old(convs), listing, buyer, target, merged, k);
        if c != target && convs[c].buyer == Some(buyer) {
          ghost var before := messages;
          known := MoveMessages(c, target, known);
          MergedMore(old(messages), before, messages, merged, c, target);
          merged := merged + {c};
          convs := convs - {c};
        }
      }
      assert listing[..|listing|] == listing;
    }

    /** Rebinds the chat id to the buyer and merges the buyer's proven conversations into one. */
    method RebindBuyerChat(listing: seq<ConvId>, buyer: BuyerId, chat: ChatId, newId: ConvId)
      returns (ok: bool, target: ConvId, ghost merged: set<ConvId>)
      requires ChatsUnique(convs) && SourcesUnique(messages) && Listed(listing, buyer, chat) && newId !in convs
      modifies this
      ensures !ok <==> exists c :: c in old(convs) && TakenByAnother(old(convs)[c], buyer, chat)
      ensures !ok ==> convs == old(convs) && messages == old(messages) && sales == old(sales) && orders == old(orders)
      ensures ok ==> Merged(old(messages), messages, merged, target)
      ensures ok ==> MergeSet(old(convs), listing, buyer, target, merged) && Chosen(old(convs), listing, buyer, chat, newId, target)
      ensures ok && (forall c :: c in listing ==> old(convs)[c].chat != Remote(chat)) ==>
                if exists c :: c in listing && old(convs)[c].buyer == Some(buyer)
                then MostRecent(old(convs), listing, buyer, target) else target == newId
      ensures ok ==> Rebound(old(convs), convs, messages, buyer, chat, target, merged)
      ensures ok ==> Counted(old(convs), old(messages)) ==> Counted(convs, messages)
      ensures ok ==> Repointed(old(sales), sales, old(orders), orders, buyer, chat)
    {
      merged := {};
      ok, target := TakeChat(listing, buyer, chat, newId);
      if !ok {
        return;
      }
      if FirstOfBuyer(old(convs), listing, buyer, target) {
        FirstIsMostRecent(old(convs), listing, buyer, target);
      }
      ghost var taken := convs;
      TakenKeepsUnique(old(convs), taken, listing, buyer, chat, newId, target);
      merged := MergeOthers(listing, buyer, target);
      SameMergeSet(old(convs), taken, listing, buyer, chat, newId, target, merged);
      var unread := CountUnread(target);
      var last := LatestOf(target);
      convs := convs[target := convs[target].(unread := unread, last := last)];
      ReboundFrom(old(convs), taken, convs, messages, listing, buyer, chat, newId, target, merged);
      StillCounted(old(convs), old(messages), convs, messages, buyer, chat, target, merged);
      PointSales(buyer, chat);
    }

    // ---- The inbox ------------------------------------------------------------------------------

    /** The newest pending reply with the text, as an index, or the window's length. */
    method FindEcho(window: seq<MessageId>, text: string) returns (k: nat)
      requires forall m :: m in window ==> m in messages
      ensures k == FirstEcho(messages, window, text, 0)
      ensures k <= |window| && (k < |window| ==> messages[window[k]].text == text)
      ensures forall i :: 0 <= i < k ==> messages[window[i]].text != text
    {
      k := 0;
      while k < |window| && messages[window[k]].text != text
        invariant k <= |window| && forall i :: 0 <= i < k ==> messages[window[i]].text != text
      {
        k := k + 1;
      }
    }

    /** The statements of a message event. */
    method StoreEvent(c: ConvId, seen: nat, source: SourceId, fromMe: bool, text: string, window: seq<MessageId>, now: Time, id: MessageId)
      returns (created: bool)
      requires c in convs && id !in messages && forall m :: m in window ==> m in messages
      modifies this`convs, this`messages
      ensures (convs, messages, created) == Recorded(old(convs), old(messages), c, seen, source, fromMe, text, window, now, id)
    {
      if exists m :: m in messages && messages[m].conv == c && messages[m].source == Some(source) {
        return false;
      }
      assert !HasSource(messages, c, source);
      if fromMe {
        var k := FindEcho(window, text);
        if k < |window| {
          messages := messages[window[k] := messages[window[k]].(source := Some(source), pending := false, read := true)];
          return false;
        }
      }
      ghost var m := NewMessage(c, source, fromMe, text, now);
      ghost var after := Summarized(convs, c, seen, m);
      messages := messages[id := Message(c, Some(source), !fromMe, fromMe, false, text, now)];
      if !fromMe {
        convs := convs[c := convs[c].(unread := seen + 1)];
      }
      convs := convs[c := convs[c].(last := Some(Last(text, !fromMe, now)))];
      assert convs == after;
      created := true;
    }

    /** A message event; `window` is the newest pending replies of the conversation, newest first, and `seen` the
        counter as the conversation was read. */
    method RecordEvent(c: ConvId, seen: nat, source: SourceId, fromMe: bool, text: string, window: seq<MessageId>, now: Time, id: MessageId)
      returns (created: bool)
      requires c in convs && id !in messages
      requires forall m :: m in window ==> m in messages && messages[m].conv == c && !messages[m].incoming && messages[m].pending
      modifies this`convs, this`messages
      ensures (convs, messages, created) == Recorded(old(convs), old(messages), c, seen, source, fromMe, text, window, now, id)
      ensures Records(old(convs), convs, old(messages), messages, created, c, seen, source, fromMe, text, window, now, id)
      ensures created && (fromMe || seen == old(convs)[c].unread) ==>
                Arrived(old(convs), convs, old(messages), messages, c, NewMessage(c, source, fromMe, text, now), id)
      ensures created <==> !HasSource(old(messages), c, source) && (!fromMe || forall m :: m in window ==> old(messages)[m].text != text)
      ensures Counted(old(convs), old(messages)) ==>
                (Counted(convs, messages) <==> (created && !fromMe ==> seen == old(convs)[c].unread))
      ensures SourcesUnique(old(messages)) ==> SourcesUnique(messages)
    {
      RecordedLaw(convs, messages, c, seen, source, fromMe, text, window, now, id);
      RecordedFacts(convs, messages, c, seen, source, fromMe, text, window, now, id);
      if Counted(convs, messages) {
        RecordedCounts(convs, messages, c, seen, source, fromMe, text, window, now, id);
      }
      created := StoreEvent(c, seen, source, fromMe, text, window, now, id);
    }

    /** `seen` is the counter as the conversation was read, `marked` what the statement on the messages found. */
    method MarkRead(c: ConvId, visible: bool, seen: nat, marked: set<MessageId>) returns (ok: bool)
      requires c in convs && forall m :: m in marked && m in messages ==> messages[m].conv == c
      modifies this`convs, this`messages
      ensures ok == visible && (!ok ==> convs == old(convs) && messages == old(messages))
      ensures ok ==> convs == Cleared(old(convs), c, seen) && messages == MarkedRead(old(messages), marked)
      ensures ok ==> Reads(old(convs), convs, old(messages), messages, c, seen, marked)
      ensures ok && marked == UnreadSet(old(messages), c) ==> AllRead(old(messages), messages, c)
      ensures ok && Counted(old(convs), old(messages)) ==> (Counted(convs, messages) <==> MarkedInTime(old(messages), c, seen, marked))
    {
      if !visible {
        return false;
      }
      MarkedLeaves(messages, c, marked);
      if Counted(convs, messages) {
        MarkedCounts(convs, messages, c, seen, marked);
      }
      messages := MarkedRead(messages, marked);
      if seen != 0 {
        convs := convs[c := convs[c].(unread := 0)];
      }
      ok := true;
    }

    method CreateOutgoingPending(c: ConvId, text: string, now: Time, id: MessageId)
      requires c in convs && id !in messages
      modifies this`convs, this`messages
      ensures Arrived(old(convs), convs, old(messages), messages, c, Message(c, None, false, true, true, text, now), id)
      ensures messages == old(messages)[id := Message(c, None, false, true, true, text, now)]
      ensures convs == old(convs)[c := old(convs)[c].(last := Some(Last(text, false, now)))]
      ensures Counted(old(convs), old(messages)) ==> Counted(convs, messages)
    {
      ArrivalKeepsCounts(convs, messages, c, Message(c, None, false, true, true, text, now), id);
      messages := messages[id := Message(c, None, false, true, true, text, now)];
      convs := convs[c := convs[c].(last := Some(Last(text, false, now)))];
    }
  }
}
