/** What a run of delivery attempts guarantees to the reader of the chat. */
module DeliveryProofs {
  import opened Numbers
  import opened Delivery

  /** The texts whose delivery was recorded, in the order of the chat. */
  function RecordedTexts(chat: seq<Message>): (r: seq<string>)
    ensures |r| <= |chat|
  {
    if chat == [] then []
    else RecordedTexts(chat[..|chat| - 1]) + (if chat[|chat| - 1].recorded then [chat[|chat| - 1].text] else [])
  }

  /** Messages in the chat that the record does not know of. */
  function Lost(chat: seq<Message>): nat {
    |chat| - |RecordedTexts(chat)|
  }

  function Texts(chat: seq<Message>): (r: seq<string>)
    ensures |r| == |chat|
  {
    seq(|chat|, i requires 0 <= i < |chat| => chat[i].text)
  }

  /** The saved counters all count the recorded messages. */
  ghost predicate Counts(r: Record, chat: seq<Message>) {
    r.chunksSent == |r.messageIds| == r.attemptCount == |RecordedTexts(chat)|
  }

  /** Every message is the first chunk not yet recorded when it was sent. */
  ghost predicate InOrder(chat: seq<Message>, chunks: seq<string>) {
    forall k :: 0 <= k < |chat| ==>
      |RecordedTexts(chat[..k])| < |chunks| && chat[k].text == chunks[|RecordedTexts(chat[..k])|]
  }

  lemma {:induction false} OneMessage(chat: seq<Message>, m: Message)
    ensures RecordedTexts(chat + [m]) == RecordedTexts(chat) + (if m.recorded then [m.text] else [])
    ensures Lost(chat + [m]) == Lost(chat) + (if m.recorded then 0 else 1)
  {
    assert (chat + [m])[..|chat|] == chat;
  }

  lemma {:induction false} InOrderNext(chat: seq<Message>, m: Message, chunks: seq<string>)
    requires InOrder(chat, chunks)
    requires |RecordedTexts(chat)| < |chunks| && m.text == chunks[|RecordedTexts(chat)|]
    ensures InOrder(chat + [m], chunks)
  {
    var longer := chat + [m];
    forall k | 0 <= k < |longer|
      ensures |RecordedTexts(longer[..k])| < |chunks| && longer[k].text == chunks[|RecordedTexts(longer[..k])|]
    {
      assert longer[..k] == chat[..k];
      assert k == |chat| ==> chat[..k] == chat;
    }
  }

  lemma {:induction false} InOrderBefore(chat: seq<Message>, k: nat, chunks: seq<string>)
    requires InOrder(chat, chunks) && k <= |chat|
    ensures InOrder(chat[..k], chunks)
  {
    forall m | 0 <= m < k ensures chat[..k][..m] == chat[..m] {}
  }

  /** In an orderly chat the recorded messages are the first chunks, each exactly once. */
  lemma {:induction false} RecordedIsPrefix(chat: seq<Message>, chunks: seq<string>)
    requires InOrder(chat, chunks)
    ensures RecordedTexts(chat) <= chunks
  {
    if chat != [] {
      var k := |chat| - 1;
      InOrderBefore(chat, k, chunks);
      RecordedIsPrefix(chat[..k], chunks);
      assert |RecordedTexts(chat[..k])| < |chunks| && chat[k].text == chunks[|RecordedTexts(chat[..k])|];
      hide InOrder;
    }
  }

  // ---- Confirmed stretches ----

  predicate Goes(call: Call) {
    call.enabled && (call.manual || call.due) && call.lockFree && call.configured
  }

  ghost predicate ConfirmedBetween(call: Call, i: nat, p: nat) {
    forall k: nat :: i <= k < p ==> call.reply(k).Confirmed?
  }

  /** The messages of a stretch of confirmed sends. */
  function Confirmations(call: Call, i: nat, p: nat): (r: seq<Message>)
    requires i <= p <= |call.chunks|
    ensures |r| == p - i
  {
    if i == p then [] else Confirmations(call, i, p - 1) + [Message(call.chunks[p - 1], true)]
  }

  function ConfirmedIds(call: Call, i: nat, p: nat): (r: seq<Option<int>>)
    requires i <= p <= |call.chunks| && forall k: nat :: i <= k < p ==> call.reply(k).Confirmed?
    ensures |r| == p - i
  {
    if i == p then [] else ConfirmedIds(call, i, p - 1) + [call.reply(p - 1).id]
  }

  /** The record after a stretch of confirmed sends. */
  function Advanced(call: Call, delivery: Record, i: nat, p: nat): Record
    requires i <= p <= |call.chunks| && forall k: nat :: i <= k < p ==> call.reply(k).Confirmed?
  {
    if i == p then delivery
    else delivery.(messageIds := delivery.messageIds + ConfirmedIds(call, i, p),
                   attemptCount := delivery.attemptCount + p - i, chunksSent := p)
  }

  /** The world after a stretch of confirmed sends. */
  function Moved(call: Call, w: World, delivery: Record, i: nat, p: nat): World
    requires i <= p <= |call.chunks| && forall k: nat :: i <= k < p ==> call.reply(k).Confirmed?
  {
    World(if i == p then w.saved else Advanced(call, delivery, i, p), w.chat + Confirmations(call, i, p))
  }

  lemma {:induction false} AdvancedOnce(call: Call, delivery: Record, i: nat, p: nat)
    requires i < p <= |call.chunks| && ConfirmedBetween(call, i, p)
    ensures Progressed(Advanced(call, delivery, i, p - 1), p - 1, call.reply(p - 1).id)
            == Advanced(call, delivery, i, p)
  {
    var ids := ConfirmedIds(call, i, p - 1);
    assert (delivery.messageIds + ids) + [call.reply(p - 1).id] == delivery.messageIds + (ids + [call.reply(p - 1).id]);
  }

  lemma {:induction false} Advance(call: Call, w: World, delivery: Record, i: nat, p: nat)
    requires i <= p <= |call.chunks| && ConfirmedBetween(call, i, p)
    ensures SendFrom(call, w, delivery, i)
            == SendFrom(call, Moved(call, w, delivery, i, p), Advanced(call, delivery, i, p), p)
    decreases p
  {
    hide Advanced;
    if i == p {
      assert Advanced(call, delivery, i, p) == delivery by {
        AdvancedNone(call, delivery, i);
      }
      assert w.chat + [] == w.chat;
    } else {
      Advance(call, w, delivery, i, p - 1);
      AdvancedOnce(call, delivery, i, p);
      var m := Message(call.chunks[p - 1], true);
      assert (w.chat + Confirmations(call, i, p - 1)) + [m] == w.chat + (Confirmations(call, i, p - 1) + [m]);
    }
  }

  lemma {:induction false} AdvancedNone(call: Call, delivery: Record, i: nat)
    requires i <= |call.chunks|
    ensures Advanced(call, delivery, i, i) == delivery
  {
  }

  lemma {:induction false} OneMoreChunk(chunks: seq<string>, i: nat, p: nat)
    requires i < p <= |chunks|
    ensures chunks[i..p] == chunks[i..p - 1] + [chunks[p - 1]]
  {
  }

  lemma {:induction false} Regroup<T>(a: seq<T>, b: seq<T>, c: seq<T>)
    ensures (a + b) + c == a + (b + c)
  {
  }

  /** A stretch of confirmed sends records exactly its chunks. */
  lemma {:induction false} ConfirmedTexts(call: Call, chat: seq<Message>, i: nat, p: nat)
    requires i <= p <= |call.chunks|
    ensures RecordedTexts(chat + Confirmations(call, i, p)) == RecordedTexts(chat) + call.chunks[i..p]
    decreases p
  {
    if i == p {
      assert chat + [] == chat;
    } else {
      ConfirmedTexts(call, chat, i, p - 1);
      hide RecordedTexts;
      var before, m := chat + Confirmations(call, i, p - 1), Message(call.chunks[p - 1], true);
      assert chat + Confirmations(call, i, p) == before + [m];
      OneMessage(before, m);
      OneMoreChunk(call.chunks, i, p);
      Regroup(RecordedTexts(chat), call.chunks[i..p - 1], [m.text]);
    }
  }

  lemma {:induction false} ConfirmedInOrder(call: Call, chat: seq<Message>, i: nat, p: nat)
    requires i <= p <= |call.chunks| && InOrder(chat, call.chunks) && |RecordedTexts(chat)| == i
    ensures InOrder(chat + Confirmations(call, i, p), call.chunks)
    decreases p
  {
    hide InOrder;
    if i == p {
      assert chat + [] == chat;
    } else {
      ConfirmedInOrder(call, chat, i, p - 1);
      ConfirmedTexts(call, chat, i, p - 1);
      var before, m := chat + Confirmations(call, i, p - 1), Message(call.chunks[p - 1], true);
      assert chat + Confirmations(call, i, p) == before + [m];
      InOrderNext(before, m, call.chunks);
    }
  }

  /** How far the sends from `i` on are confirmed. */
  function Stop(call: Call, i: nat): (p: nat)
    requires i <= |call.chunks|
    ensures i <= p <= |call.chunks|
    ensures forall k: nat :: i <= k < p ==> call.reply(k).Confirmed?
    ensures p < |call.chunks| ==> !call.reply(p).Confirmed?
    decreases |call.chunks| - i
  {
    if i == |call.chunks| || !call.reply(i).Confirmed? then i else Stop(call, i + 1)
  }

  /** Where an attempt on a record starts to send. */
  function Start(call: Call, w: World): (i: nat)
    ensures i <= |call.chunks|
  {
    Min(w.saved.chunksSent, |call.chunks|)
  }

  /** An attempt that gets to sending: its confirmed sends, and then how it stops. */
  lemma {:induction false} AttemptStops(call: Call, w: World)
    requires Goes(call) && (w.saved.status == Sent ==> call.force)
    ensures var delivery := Delivery.Prepared(call, w.saved);
            var i := Min(delivery.chunksSent, |call.chunks|);
            Attempt(call, w) == SendFrom(call, Moved(call, w, delivery, i, Stop(call, i)),
                                         Advanced(call, delivery, i, Stop(call, i)), Stop(call, i))
  {
    hide SendFrom, Moved, Advanced, Stop;
    var delivery := Delivery.Prepared(call, w.saved);
    var i := Min(delivery.chunksSent, |call.chunks|);
    Advance(call, w, delivery, i, Stop(call, i));
  }

  // ---- How an attempt ends ----

  /** Attempts that do not get to sending: why, and that only the missing configuration leaves a mark. */
  lemma {:induction false} AttemptSkipsExactlyWhen(call: Call, w: World)
    ensures var (w', outcome) := Attempt(call, w);
            && (outcome == Disabled <==> !call.enabled)
            && (outcome == NotYetTime <==> call.enabled && !call.manual && !call.due)
            && (outcome == AlreadyRunning <==> call.enabled && (call.manual || call.due) && !call.lockFree)
            && (outcome == AlreadySent
                <==> call.enabled && (call.manual || call.due) && call.lockFree && w.saved.status == Sent
                     && !call.force)
            && (outcome == NotConfigured
                <==> call.enabled && (call.manual || call.due) && call.lockFree && !call.configured
                     && (w.saved.status == Sent ==> call.force))
            && (outcome in {Disabled, NotYetTime, AlreadyRunning, AlreadySent} ==> w' == w)
            && (outcome == NotConfigured ==>
                  && w'.chat == w.chat
                  && w'.saved == w.saved.(status := Skipped, chunksTotal := |call.chunks|,
                                          chunksSent := if call.force then 0 else w.saved.chunksSent,
                                          messageIds := if call.force then [] else w.saved.messageIds))
  {
    if Goes(call) && (w.saved.status == Sent ==> call.force) {
      var delivery := Delivery.Prepared(call, w.saved);
      SendingEnds(call, w, delivery, Min(delivery.chunksSent, |call.chunks|));
    }
    hide SendFrom;
  }

  lemma {:induction false} SendingEnds(call: Call, w: World, delivery: Record, i: nat)
    requires i <= |call.chunks|
    ensures SendFrom(call, w, delivery, i).1 in {Delivered(|call.chunks|), TransientError, PermanentError, Interrupted}
    decreases |call.chunks| - i
  {
    if i < |call.chunks| && call.reply(i).Confirmed? {
      var next := Progressed(delivery, i, call.reply(i).id);
      SendingEnds(call, Delivery.Received(w, call.chunks[i], true).(saved := next), next, i + 1);
    }
  }

  /** The outcome after the confirmed sends, by the reply to chunk `p` or by how the process ends. */
  ghost predicate EndsWith(call: Call, p: nat, outcome: Outcome)
    requires p <= |call.chunks|
  {
    if p == |call.chunks| then
      outcome == if call.diesBeforeFinalSave then Interrupted else Delivered(|call.chunks|)
    else
      match call.reply(p)
      case Confirmed(_) => false
      case Ambiguous | Unreachable => outcome == TransientError
      case Refused => outcome == PermanentError
      case Unrecorded | Died => outcome == Interrupted
  }

  /** The status an outcome leaves behind. */
  ghost predicate StatusByOutcome(call: Call, before: Status, outcome: Outcome, after: Status) {
    match outcome
    case Delivered(_) => after == Sent
    case TransientError => if call.lastRetry then after == Failed else after == Retrying
    case PermanentError => after == Failed
    case NotConfigured => after == Skipped
    case _ => after == before
  }

  /** The chat gains the chunks `i` to `p` in order, and after them chunk `p` if it arrived without a record. */
  ghost predicate ChatGrows(call: Call, chat: seq<Message>, i: nat, p: nat, chat': seq<Message>)
    requires i <= p <= |call.chunks|
  {
    var extra := p < |call.chunks| && (call.reply(p).Unrecorded? || call.reply(p).Ambiguous?);
    && |chat'| == |chat| + (p - i) + (if extra then 1 else 0)
    && chat <= chat'
    && (forall k: nat :: i <= k < p ==> chat'[|chat| + k - i] == Message(call.chunks[k], true))
    && (extra ==> chat'[|chat'| - 1] == Message(call.chunks[p], false))
  }

  /** The record counts the chunks up to `p`, lists their message ids after those kept, and has the given status. */
  ghost predicate RecordGrows(call: Call, before: Record, i: nat, p: nat, outcome: Outcome, after: Record)
    requires i <= p <= |call.chunks|
  {
    var kept := if call.force then [] else before.messageIds;
    && after.chunksTotal == |call.chunks|
    && after.chunksSent == (if i < p then p else if call.force then 0 else before.chunksSent)
    && after.attemptCount == before.attemptCount + p - i
    && |after.messageIds| == |kept| + p - i && kept <= after.messageIds
    && (forall k: nat :: i <= k < p ==> call.reply(k) == Confirmed(after.messageIds[|kept| + k - i]))
    && StatusByOutcome(call, before.status, outcome, after.status)
    && (if outcome.Delivered? then
          forall id: int :: after.telegramMessageId == Some(id)
                            <==> id != 0 && after.messageIds != [] && after.messageIds[0] == Some(id)
        else after.telegramMessageId == before.telegramMessageId)
  }

  lemma {:induction false} ConfirmedAt(call: Call, i: nat, p: nat)
    requires i <= p <= |call.chunks| && ConfirmedBetween(call, i, p)
    ensures forall k: nat :: i <= k < p ==> call.reply(k) == Confirmed(ConfirmedIds(call, i, p)[k - i])
    ensures forall k: nat :: i <= k < p ==> Confirmations(call, i, p)[k - i] == Message(call.chunks[k], true)
  {
    if i < p {
      ConfirmedAt(call, i, p - 1);
    }
  }

  /** The record in memory after the confirmed sends. */
  lemma {:induction false} AdvancedGrows(call: Call, w: World, i: nat, p: nat)
    requires i <= p <= |call.chunks| && ConfirmedBetween(call, i, p)
    ensures RecordGrows(call, w.saved, i, p, Interrupted, Advanced(call, Delivery.Prepared(call, w.saved), i, p))
  {
    ConfirmedAt(call, i, p);
    hide ConfirmedIds;
  }

  lemma {:induction false} StoppedChat(call: Call, w: World, delivery: Record, i: nat, p: nat)
    requires i <= p <= |call.chunks| && ConfirmedBetween(call, i, p)
    requires p < |call.chunks| ==> !call.reply(p).Confirmed?
    ensures var (w', outcome) := SendFrom(call, Moved(call, w, delivery, i, p), Advanced(call, delivery, i, p), p);
            EndsWith(call, p, outcome) && ChatGrows(call, w.chat, i, p, w'.chat)
  {
    ConfirmedAt(call, i, p);
    hide Confirmations, ConfirmedIds, Advanced;
  }

  lemma {:induction false} StoppedRecord(call: Call, w: World, delivery: Record, p: nat)
    requires p <= |call.chunks| && (p < |call.chunks| ==> !call.reply(p).Confirmed?)
    ensures var (w', outcome) := SendFrom(call, w, delivery, p);
            if outcome == Interrupted then w'.saved == w.saved
            else && StatusByOutcome(call, delivery.status, outcome, w'.saved.status)
                 && w'.saved == delivery.(status := w'.saved.status,
                                          telegramMessageId := if outcome.Delivered? then FirstId(delivery.messageIds)
                                                               else delivery.telegramMessageId)
  {
  }

  lemma {:induction false} StoppedEnds(call: Call, w: World, i: nat, p: nat)
    requires i <= p <= |call.chunks| && ConfirmedBetween(call, i, p)
    requires p < |call.chunks| ==> !call.reply(p).Confirmed?
    ensures var delivery := Delivery.Prepared(call, w.saved);
            var (w', outcome) := SendFrom(call, Moved(call, w, delivery, i, p), Advanced(call, delivery, i, p), p);
            && EndsWith(call, p, outcome)
            && ChatGrows(call, w.chat, i, p, w'.chat)
            && (if i == p && outcome == Interrupted then w'.saved == w.saved
                else RecordGrows(call, w.saved, i, p, outcome, w'.saved))
  {
    hide SendFrom, Advanced, EndsWith, ChatGrows, Confirmations;
    var delivery := Delivery.Prepared(call, w.saved);
    StoppedChat(call, w, delivery, i, p);
    StoppedRecord(call, Moved(call, w, delivery, i, p), Advanced(call, delivery, i, p), p);
    AdvancedGrows(call, w, i, p);
  }

  /**
   An attempt that gets to sending starts after the chunks on record, or at the first if forced, and sends up to the
   first chunk `p` whose send is not confirmed. That reply decides the outcome, and the outcome the status. A record is
   saved unless the process ends before anything is confirmed.
   */
  lemma {:induction false} AttemptEndsAs(call: Call, w: World) returns (i: nat, p: nat)
    requires Goes(call) && (w.saved.status == Sent ==> call.force)
    ensures i <= p <= |call.chunks| && i == if call.force then 0 else Min(w.saved.chunksSent, |call.chunks|)
    ensures ConfirmedBetween(call, i, p)
    ensures var (w', outcome) := Attempt(call, w);
            && EndsWith(call, p, outcome)
            && ChatGrows(call, w.chat, i, p, w'.chat)
            && (if i == p && outcome == Interrupted then w'.saved == w.saved
                else RecordGrows(call, w.saved, i, p, outcome, w'.saved))
  {
    var delivery := Delivery.Prepared(call, w.saved);
    i := Min(delivery.chunksSent, |call.chunks|);
    p := Stop(call, i);
    hide Attempt, Confirmations, ConfirmedIds, Stop, ChatGrows, RecordGrows, EndsWith;
    AttemptStops(call, w);
    ConfirmedAt(call, i, p);
    StoppedEnds(call, w, i, p);
  }

  // ---- One attempt keeps the books ----

  /** Some send of the attempt could reach the chat without being recorded. */
  ghost predicate Lossy(call: Call) {
    exists i :: 0 <= i < |call.chunks| && call.reply(i).Loses()
  }

  /** What one attempt leaves untouched and how much it may lose. */
  ghost predicate Grows(w: World, w': World, losses: nat) {
    && w.chat <= w'.chat && w.saved.messageIds <= w'.saved.messageIds
    && w.saved.chunksSent <= w'.saved.chunksSent
    && Lost(w'.chat) <= Lost(w.chat) + losses
  }

  lemma {:induction false} MovedCounts(call: Call, w: World, delivery: Record, i: nat, p: nat)
    requires i <= p <= |call.chunks| && ConfirmedBetween(call, i, p)
    requires Counts(w.saved, w.chat) && Counts(delivery, w.chat) && (i < p ==> i == delivery.chunksSent)
    requires delivery.messageIds == w.saved.messageIds
    ensures var w' := Moved(call, w, delivery, i, p);
            && Counts(w'.saved, w'.chat) && Counts(Advanced(call, delivery, i, p), w'.chat)
            && Grows(w, w', 0) && Advanced(call, delivery, i, p).messageIds == w'.saved.messageIds
  {
    ConfirmedTexts(call, w.chat, i, p);
    assert |call.chunks[i..p]| == p - i;
  }

  /** How an attempt ends after its confirmed sends. */
  lemma {:induction false} StoppedCounts(call: Call, w: World, delivery: Record, p: nat)
    requires p <= |call.chunks| && (p < |call.chunks| ==> !call.reply(p).Confirmed?)
    requires Counts(w.saved, w.chat) && Counts(delivery, w.chat) && delivery.messageIds == w.saved.messageIds
    ensures var w' := SendFrom(call, w, delivery, p).0;
            Counts(w'.saved, w'.chat) && Grows(w, w', if Lossy(call) then 1 else 0)
  {
    if p < |call.chunks| && call.reply(p).Loses() {
      OneMessage(w.chat, Message(call.chunks[p], false));
    }
  }

  /** No attempt without `force` takes anything back: chat, message ids and counters only grow. */
  lemma {:induction false} NothingIsTakenBack(call: Call, w: World)
    requires !call.force && Counts(w.saved, w.chat)
    ensures var w' := Attempt(call, w).0;
            Counts(w'.saved, w'.chat) && Grows(w, w', if Lossy(call) then 1 else 0)
  {
    hide SendFrom, Moved, Advanced, Lossy, RecordedTexts;
    if Goes(call) && w.saved.status != Sent {
      var delivery := Delivery.Prepared(call, w.saved);
      var i := Start(call, w);
      var p := Stop(call, i);
      AttemptStops(call, w);
      MovedCounts(call, w, delivery, i, p);
      StoppedCounts(call, Moved(call, w, delivery, i, p), Advanced(call, delivery, i, p), p);
    }
  }

  /** What holds between attempts to deliver one fixed list of chunks. */
  ghost predicate Delivering(w: World, chunks: seq<string>) {
    && Counts(w.saved, w.chat)
    && InOrder(w.chat, chunks)
    && RecordedTexts(w.chat) <= chunks
    && (w.saved.status == Sent ==> RecordedTexts(w.chat) == chunks)
  }

  lemma {:induction false} StoppedDelivers(call: Call, w: World, delivery: Record, p: nat)
    requires p <= |call.chunks| && (p < |call.chunks| ==> !call.reply(p).Confirmed?)
    requires Counts(w.saved, w.chat) && Counts(delivery, w.chat) && delivery.messageIds == w.saved.messageIds
    requires InOrder(w.chat, call.chunks) && RecordedTexts(w.chat) == call.chunks[..p]
    requires w.saved.status != Sent && delivery.status != Sent
    ensures Delivering(SendFrom(call, w, delivery, p).0, call.chunks)
  {
    hide InOrder, RecordedTexts, Counts, Grows;
    StoppedCounts(call, w, delivery, p);
    assert |call.chunks[..p]| == p;
    assert call.chunks[..|call.chunks|] == call.chunks;
    if p < |call.chunks| && call.reply(p).Loses() {
      OneMessage(w.chat, Message(call.chunks[p], false));
      InOrderNext(w.chat, Message(call.chunks[p], false), call.chunks);
      assert RecordedTexts(w.chat) + [] == RecordedTexts(w.chat);
    }
  }

  lemma {:induction false} AttemptDelivers(call: Call, w: World)
    requires !call.force && Delivering(w, call.chunks)
    ensures Delivering(Attempt(call, w).0, call.chunks)
  {
    hide SendFrom, InOrder, RecordedTexts, ConfirmedIds, Confirmations;
    if Goes(call) && w.saved.status != Sent {
      var delivery := Delivery.Prepared(call, w.saved);
      var i := Start(call, w);
      var p := Stop(call, i);
      AttemptStops(call, w);
      MovedCounts(call, w, delivery, i, p);
      ConfirmedTexts(call, w.chat, i, p);
      ConfirmedInOrder(call, w.chat, i, p);
      assert call.chunks[..i] + call.chunks[i..p] == call.chunks[..p];
      StoppedDelivers(call, Moved(call, w, delivery, i, p), Advanced(call, delivery, i, p), p);
    }
  }

  // ---- Runs ----

  ghost predicate SameReport(calls: seq<Call>, chunks: seq<string>) {
    forall c :: 0 <= c < |calls| ==> !calls[c].force && calls[c].chunks == chunks
  }

  ghost function CountLossy(calls: seq<Call>): (n: nat)
    ensures n <= |calls|
  {
    if calls == [] then 0
    else CountLossy(calls[..|calls| - 1]) + (if Lossy(calls[|calls| - 1]) then 1 else 0)
  }

  function Outset(): World {
    World(NEW_RECORD, [])
  }

  lemma {:induction false} RunDelivers(calls: seq<Call>, chunks: seq<string>)
    requires SameReport(calls, chunks)
    ensures Delivering(After(calls, Outset()), chunks)
    ensures Lost(After(calls, Outset()).chat) <= CountLossy(calls)
  {
    hide Attempt, Delivering, Lost, Lossy, Counts;
    if calls == [] {
      NothingDelivered(chunks);
    } else {
      var before := calls[..|calls| - 1];
      RunDelivers(before, chunks);
      DeliveringCounts(After(before, Outset()), chunks);
      NothingIsTakenBack(calls[|calls| - 1], After(before, Outset()));
      AttemptDelivers(calls[|calls| - 1], After(before, Outset()));
    }
  }

  lemma {:induction false} NothingDelivered(chunks: seq<string>)
    ensures Delivering(Outset(), chunks) && Lost(Outset().chat) == 0
  {
  }

  lemma {:induction false} DeliveringCounts(w: World, chunks: seq<string>)
    requires Delivering(w, chunks)
    ensures Counts(w.saved, w.chat)
  {
  }

  /**
   Over any run of unforced attempts to deliver one list of chunks: the record counts exactly the chunks known to have
   arrived, which are the first ones; every message was the next chunk due; no more messages than chunks arrive, plus
   one for each attempt with a lost acknowledgement; and a record marked as sent means that every chunk has arrived.
   */
  lemma {:induction false} DeliveryIsSafe(calls: seq<Call>, chunks: seq<string>)
    requires SameReport(calls, chunks)
    ensures var w := After(calls, Outset());
            && w.saved.chunksSent == |w.saved.messageIds| == w.saved.attemptCount <= |chunks|
            && RecordedTexts(w.chat) == chunks[..w.saved.chunksSent]
            && InOrder(w.chat, chunks)
            && |w.chat| == w.saved.chunksSent + Lost(w.chat) <= |chunks| + CountLossy(calls)
            && (w.saved.status == Sent ==> RecordedTexts(w.chat) == chunks)
  {
    hide Attempt, CountLossy, InOrder;
    RunDelivers(calls, chunks);
  }

  /** Without lost acknowledgements the chat holds each recorded chunk exactly once and nothing else. */
  lemma {:induction false} ExactlyOnce(calls: seq<Call>, chunks: seq<string>)
    requires SameReport(calls, chunks) && CountLossy(calls) == 0
    ensures var w := After(calls, Outset());
            && w.saved.chunksSent <= |chunks| && Texts(w.chat) == chunks[..w.saved.chunksSent]
            && (w.saved.status == Sent ==> Texts(w.chat) == chunks)
  {
    hide After, CountLossy, InOrder;
    DeliveryIsSafe(calls, chunks);
    RunDelivers(calls, chunks);
    AllRecorded(After(calls, Outset()).chat);
  }

  lemma {:induction false} AllRecorded(chat: seq<Message>)
    requires Lost(chat) == 0
    ensures RecordedTexts(chat) == Texts(chat)
  {
    if chat != [] {
      AllRecorded(chat[..|chat| - 1]);
      assert Texts(chat) == Texts(chat[..|chat| - 1]) + [chat[|chat| - 1].text];
    }
  }

  /** The saved progress never goes back over a run, whatever the reports of the attempts. */
  lemma {:induction false} ProgressIsMonotone(calls: seq<Call>, k: nat)
    requires k <= |calls| && forall c :: 0 <= c < |calls| ==> !calls[c].force
    ensures Counts(After(calls, Outset()).saved, After(calls, Outset()).chat)
    ensures After(calls[..k], Outset()).saved.chunksSent <= After(calls, Outset()).saved.chunksSent
    ensures After(calls[..k], Outset()).chat <= After(calls, Outset()).chat
    decreases |calls|
  {
    hide Attempt;
    if k == |calls| {
      assert calls[..k] == calls;
    }
    if calls != [] {
      var before := calls[..|calls| - 1];
      ProgressIsMonotone(before, Min(k, |before|));
      assert before[..Min(k, |before|)] == calls[..Min(k, |before|)];
      hide Counts;
      NothingIsTakenBack(calls[|calls| - 1], After(before, Outset()));
    }
  }

  /** Once sent, nothing is sent or changed by further unforced attempts. */
  lemma {:induction false} SentIsFinal(calls: seq<Call>, w: World)
    requires w.saved.status == Sent && forall c :: 0 <= c < |calls| ==> !calls[c].force
    ensures After(calls, w) == w
  {
    if calls != [] {
      SentIsFinal(calls[..|calls| - 1], w);
    }
  }

  // ---- Completion ----

  /** Every send still to make is confirmed and the attempt lives to its end. */
  ghost predicate Clean(call: Call, w: World) {
    Goes(call) && ConfirmedBetween(call, Start(call, w), |call.chunks|) && !call.diesBeforeFinalSave
  }

  /** An unforced attempt leaves the report sent exactly when it was sent already or the attempt is clean. */
  lemma {:induction false} SentExactlyWhen(call: Call, w: World)
    requires !call.force
    ensures Attempt(call, w).0.saved.status == Sent <==> w.saved.status == Sent || Clean(call, w)
  {
    hide ConfirmedIds, Confirmations;
    if Goes(call) && w.saved.status != Sent {
      AttemptStops(call, w);
    }
  }

  /** A clean attempt adds exactly the chunks after those recorded. */
  lemma {:induction false} CleanAttemptAdds(call: Call, w: World)
    requires !call.force && w.saved.status != Sent && Clean(call, w)
    ensures Attempt(call, w).1 == Delivered(|call.chunks|)
    ensures RecordedTexts(Attempt(call, w).0.chat) == RecordedTexts(w.chat) + call.chunks[Start(call, w)..]
  {
    hide ConfirmedIds, Confirmations, RecordedTexts;
    var i := Start(call, w);
    StopAtEnd(call, i);
    AttemptStops(call, w);
    ConfirmedTexts(call, w.chat, i, |call.chunks|);
    assert call.chunks[i..|call.chunks|] == call.chunks[i..];
  }

  lemma {:induction false} StopAtEnd(call: Call, i: nat)
    requires i <= |call.chunks| && ConfirmedBetween(call, i, |call.chunks|)
    ensures Stop(call, i) == |call.chunks|
  {
  }

  /**
   The report is rebuilt for every attempt, and progress is kept by number. So an attempt that completes has put its
   own report into the chat exactly when what was recorded before is a beginning of that report.
   */
  lemma {:induction false} ReportIsWholeExactlyWhen(call: Call, w: World)
    requires !call.force && w.saved.status != Sent && Clean(call, w) && Counts(w.saved, w.chat)
    ensures RecordedTexts(Attempt(call, w).0.chat) == call.chunks <==> RecordedTexts(w.chat) <= call.chunks
  {
    hide Attempt, Clean;
    CleanAttemptAdds(call, w);
    var before, i := RecordedTexts(w.chat), Start(call, w);
    if before + call.chunks[i..] == call.chunks {
      assert call.chunks[..|before|] == before;
    }
    if before <= call.chunks {
      assert before == call.chunks[..i];
    }
  }

  function Plain(chunks: seq<string>, reply: nat -> Reply): Call {
    Call(false, false, true, true, true, true, chunks, reply, false, false)
  }

  /** A report that changed between two attempts is delivered as a mixture of both and marked as sent. */
  lemma {:induction false} ChangedReportIsMixed(first: Call, second: Call)
    requires first == Plain(["a", "b"], first.reply)
    requires first.reply(0) == Confirmed(None) && first.reply(1) == Unreachable
    requires second == Plain(["x", "y"], second.reply) && second.reply(1) == Confirmed(None)
    ensures var w := After([first, second], Outset());
            w.saved.status == Sent && Texts(w.chat) == ["a", "y"]
  {
    var w1 := FirstAttempt(first);
    var w2 := SecondAttempt(second, w1);
    AfterTwo(first, second, Outset());
  }

  lemma {:induction false} AfterOneMore(calls: seq<Call>, call: Call, w: World)
    ensures After(calls + [call], w) == Attempt(call, After(calls, w)).0
  {
    assert (calls + [call])[..|calls|] == calls;
  }

  lemma {:induction false} AfterTwo(first: Call, second: Call, w: World)
    ensures After([first, second], w) == Attempt(second, Attempt(first, w).0).0
  {
    hide Attempt;
    assert [] + [first] == [first] && [first] + [second] == [first, second];
    AfterOneMore([], first, w);
    AfterOneMore([first], second, w);
  }

  lemma {:induction false} FirstAttempt(first: Call) returns (w: World)
    requires first == Plain(["a", "b"], first.reply)
    requires first.reply(0) == Confirmed(None) && first.reply(1) == Unreachable
    ensures w == Attempt(first, Outset()).0
    ensures w.chat == [Message("a", true)] && w.saved.chunksSent == 1 && w.saved.status == Retrying
  {
    var prepared := Delivery.Prepared(first, NEW_RECORD);
    var saved := Progressed(prepared, 0, None);
    var reached := Received(Outset(), "a", true).(saved := saved);
    w := reached.(saved := AfterTransient(first, saved));
    assert SendFrom(first, reached, saved, 1) == (w, TransientError);
    assert SendFrom(first, Outset(), prepared, 0) == (w, TransientError);
  }

  lemma {:induction false} SecondAttempt(second: Call, w: World) returns (w': World)
    requires second == Plain(["x", "y"], second.reply) && second.reply(1) == Confirmed(None)
    requires w.chat == [Message("a", true)] && w.saved.chunksSent == 1 && w.saved.status == Retrying
    ensures w' == Attempt(second, w).0
    ensures w'.chat == [Message("a", true), Message("y", true)] && w'.saved.status == Sent
  {
    var prepared := Delivery.Prepared(second, w.saved);
    var saved := Progressed(prepared, 1, None);
    var reached := Received(w, "y", true).(saved := saved);
    w' := reached.(saved := Completed(saved));
    assert SendFrom(second, reached, saved, 2) == (w', Delivered(2));
    assert SendFrom(second, w, prepared, 1) == (w', Delivered(2));
  }

  // ---- Forced resends ----

  /** A forced attempt that runs clean sends the whole report again, whatever was sent before. */
  lemma {:induction false} ForcedAttemptResendsAll(call: Call, w: World)
    requires call.force && Goes(call) && ConfirmedBetween(call, 0, |call.chunks|) && !call.diesBeforeFinalSave
    ensures var w' := Attempt(call, w).0;
            && RecordedTexts(w'.chat) == RecordedTexts(w.chat) + call.chunks
            && w'.saved.status == Sent && w'.saved.chunksSent == |w'.saved.messageIds| == |call.chunks|
  {
    hide Confirmations, RecordedTexts;
    StopAtEnd(call, 0);
    AttemptStops(call, w);
    ConfirmedTexts(call, w.chat, 0, |call.chunks|);
    assert call.chunks[0..|call.chunks|] == call.chunks;
  }

  /** Marked as sent with chunks outstanding. */
  predicate Partial(r: Record) {
    r.status == Sent && r.chunksSent < r.chunksTotal
  }

  /** The process dies before it has sent all chunks of a forced attempt, or before its only save if it has none. */
  predicate CutShort(call: Call) {
    var p := Stop(call, 0);
    if p < |call.chunks| then call.reply(p).Died? || call.reply(p).Unrecorded?
    else call.chunks == [] && call.diesBeforeFinalSave
  }

  /**
   A forced resend of a sent report, whatever its new chunks, leaves a record marked as sent with chunks outstanding
   exactly when the process is cut short after saving some progress, or before saving any on a record that was so
   already; later unforced attempts will not complete it.
   */
  lemma {:induction false} ForcedResendStaysPartial(call: Call, w: World)
    requires call.force && Goes(call) && w.saved.status == Sent
    ensures Partial(Attempt(call, w).0.saved)
            <==> CutShort(call) && (0 < Stop(call, 0) || Partial(w.saved))
  {
    hide Confirmations;
    AttemptStops(call, w);
  }

  /** A report of two chunks, sent, and a forced resend that dies after the first: marked as sent for good. */
  lemma {:induction false} ForcedResendIsLost(first: Call, resend: Call, later: Call)
    requires first == Plain(["a", "b"], first.reply)
    requires first.reply(0) == Confirmed(None) && first.reply(1) == Confirmed(None)
    requires resend == Plain(["c", "d", "e"], resend.reply).(force := true)
    requires resend.reply(0) == Confirmed(None) && resend.reply(1) == Died
    requires later == Plain(["c", "d", "e"], later.reply)
    ensures var w := After([first, resend], Outset());
            && w.saved.status == Sent && w.saved.chunksSent == 1 && w.saved.chunksTotal == 3
            && Texts(w.chat) == ["a", "b", "c"]
            && After([first, resend, later], Outset()) == w
  {
    hide After, Attempt;
    AfterTwo(first, resend, Outset());
    AfterOneMore([first, resend], later, Outset());
    assert [first, resend] + [later] == [first, resend, later];
    var w := SentInFull(first);
    CutAfterOne(resend, w);
    SentStays(later, After([first, resend], Outset()));
    assert Texts(w.chat + [Message("c", true)]) == ["a", "b", "c"];
  }

  lemma {:induction false} SentStays(call: Call, w: World)
    requires w.saved.status == Sent && !call.force
    ensures Attempt(call, w).0 == w
  {
  }

  lemma {:induction false} SentInFull(first: Call) returns (w: World)
    requires first == Plain(["a", "b"], first.reply)
    requires first.reply(0) == Confirmed(None) && first.reply(1) == Confirmed(None)
    ensures w == Attempt(first, Outset()).0
    ensures w.chat == [Message("a", true), Message("b", true)] && w.saved.status == Sent
  {
    var prepared := Delivery.Prepared(first, NEW_RECORD);
    var one := Progressed(prepared, 0, None);
    var two := Progressed(one, 1, None);
    var w1 := Received(Outset(), "a", true).(saved := one);
    var w2 := Received(w1, "b", true).(saved := two);
    w := w2.(saved := Completed(two));
    assert SendFrom(first, w2, two, 2) == (w, Delivered(2));
    assert SendFrom(first, w1, one, 1) == (w, Delivered(2));
    assert SendFrom(first, Outset(), prepared, 0) == (w, Delivered(2));
  }

  lemma {:induction false} CutAfterOne(resend: Call, w: World)
    requires resend == Plain(["c", "d", "e"], resend.reply).(force := true)
    requires resend.reply(0) == Confirmed(None) && resend.reply(1) == Died && w.saved.status == Sent
    ensures var w' := Attempt(resend, w).0;
            && w'.chat == w.chat + [Message("c", true)]
            && w'.saved.status == Sent && w'.saved.chunksSent == 1 && w'.saved.chunksTotal == 3
  {
    var prepared := Delivery.Prepared(resend, w.saved);
    var one := Progressed(prepared, 0, None);
    var w1 := Received(w, "c", true).(saved := one);
    assert SendFrom(resend, w1, one, 1) == (w1, Interrupted);
    assert SendFrom(resend, w, prepared, 0) == (w1, Interrupted);
  }
}
