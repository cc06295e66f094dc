/** The resumable delivery of the daily report: one persisted record, one chat, any number of attempts. */
module Delivery {
  import opened Numbers

  datatype Status = Pending | Sent | Retrying | Failed | Skipped

  /** The persisted delivery record of one day and recipient. */
  datatype Record = Record(status: Status, chunksTotal: nat, chunksSent: nat, messageIds: seq<Option<int>>,
                           attemptCount: nat, telegramMessageId: Option<int>)

  const NEW_RECORD := Record(Pending, 0, 0, [], 0, None)

  /** How one send ends. `Unrecorded` and `Ambiguous` sends reach the chat although the record never learns of it. */
  datatype Reply =
    | Confirmed(id: Option<int>)  // delivered, acknowledged, progress saved
    | Unrecorded                  // delivered, but the process dies before its progress is saved
    | Ambiguous                   // delivered, but the reply is lost: a transient error
    | Unreachable                 // not delivered: a transient error
    | Refused                     // not delivered: a permanent error
    | Died                        // the process dies before the send
  {
    predicate Loses() {
      Unrecorded? || Ambiguous?
    }
  }

  /** One invocation of the job: its arguments, its surroundings, the report of the moment, and the reply to each
      chunk it may send. */
  datatype Call = Call(force: bool, manual: bool, enabled: bool, due: bool, lockFree: bool, configured: bool,
                       chunks: seq<string>, reply: nat -> Reply, lastRetry: bool, diesBeforeFinalSave: bool)

  datatype Outcome =
    | Disabled | NotYetTime | AlreadyRunning | AlreadySent | NotConfigured | Delivered(chunks: nat)
    | TransientError | PermanentError | Interrupted

  /** A message in the chat; `recorded` remembers whether its delivery was saved. */
  datatype Message = Message(text: string, recorded: bool)

  /** What outlives an attempt: the saved record and the chat. */
  datatype World = World(saved: Record, chat: seq<Message>)

  // ---- One attempt ----

  function Received(w: World, text: string, recorded: bool): World {
    w.(chat := w.chat + [Message(text, recorded)])
  }

  function Progressed(delivery: Record, i: nat, id: Option<int>): Record {
    delivery.(messageIds := delivery.messageIds + [id], attemptCount := delivery.attemptCount + 1, chunksSent := i + 1)
  }

  /** The first message id, unless it is missing or zero. */
  function FirstId(ids: seq<Option<int>>): Option<int> {
    if ids != [] && ids[0].Some? && ids[0].value != 0 then ids[0] else None
  }

  function Completed(delivery: Record): Record {
    delivery.(status := Sent, telegramMessageId := FirstId(delivery.messageIds))
  }

  function AfterTransient(call: Call, delivery: Record): Record {
    delivery.(status := if call.lastRetry then Failed else Retrying)
  }

  /** Sends the chunks from `i` on; `delivery` is the record in memory. */
  function SendFrom(call: Call, w: World, delivery: Record, i: nat): (World, Outcome)
    requires i <= |call.chunks|
    decreases |call.chunks| - i
  {
    if i == |call.chunks| then
      if call.diesBeforeFinalSave then (w, Interrupted)
      else (w.(saved := Completed(delivery)), Delivered(|call.chunks|))
    else
      match call.reply(i)
      case Confirmed(id) =>
        var progressed := Progressed(delivery, i, id);
        SendFrom(call, Received(w, call.chunks[i], true).(saved := progressed), progressed, i + 1)
      case Unrecorded => (Received(w, call.chunks[i], false), Interrupted)
      case Ambiguous =>
        (Received(w, call.chunks[i], false).(saved := AfterTransient(call, delivery)), TransientError)
      case Unreachable => (w.(saved := AfterTransient(call, delivery)), TransientError)
      case Refused => (w.(saved := delivery.(status := Failed)), PermanentError)
      case Died => (w, Interrupted)
  }

  /** The record as the attempt prepares it in memory. */
  function Prepared(call: Call, saved: Record): Record {
    var counted := saved.(chunksTotal := |call.chunks|);
    if call.force then counted.(chunksSent := 0, messageIds := []) else counted
  }

  function Attempt(call: Call, w: World): (World, Outcome) {
    if !call.enabled then (w, Disabled)
    else if !call.manual && !call.due then (w, NotYetTime)
    else if !call.lockFree then (w, AlreadyRunning)
    else if w.saved.status == Sent && !call.force then (w, AlreadySent)
    else
      var delivery := Prepared(call, w.saved);
      if !call.configured then (w.(saved := delivery.(status := Skipped)), NotConfigured)
      else SendFrom(call, w, delivery, Min(delivery.chunksSent, |call.chunks|))
  }

  /** The world after a run of attempts, one after the other. */
  function After(calls: seq<Call>, w: World): World {
    if calls == [] then w else Attempt(calls[|calls| - 1], After(calls[..|calls| - 1], w)).0
  }

  // ---- The job itself ----

  class ReportJob {
    /** The database row. */
    var saved: Record
    /** The chat of the recipient. */
    var chat: seq<Message>

    constructor ()
      ensures saved == NEW_RECORD && chat == []
    {
      saved, chat := NEW_RECORD, [];
    }

    ghost function Now(): World
      reads this
    {
      World(saved, chat)
    }

    /** `send_ml_daily_report`: the sends already recorded are skipped, and each further one is saved as it succeeds. */
    method SendReport(call: Call) returns (outcome: Outcome)
      modifies this
      ensures (Now(), outcome) == Attempt(call, old(Now()))
    {
      if !call.enabled {
        return Disabled;
      }
      if !call.manual && !call.due {
        return NotYetTime;
      }
      if !call.lockFree {
        return AlreadyRunning;
      }
      if saved.status == Sent && !call.force {
        return AlreadySent;
      }
      var delivery := saved.(chunksTotal := |call.chunks|);
      if call.force {
        delivery := delivery.(chunksSent := 0, messageIds := []);
      }
      if !call.configured {
        delivery := delivery.(status := Skipped);
        saved := delivery;
        return NotConfigured;
      }
      var alreadySent := delivery.chunksSent;
      for i := 0 to |call.chunks|
        invariant i <= alreadySent ==> Now() == old(Now()) && delivery == Prepared(call, old(saved))
        invariant SendFrom(call, Now(), delivery, Max(i, Min(alreadySent, |call.chunks|)))
                  == Attempt(call, old(Now()))
      {
        if i < alreadySent {
          continue;
        }
        match call.reply(i) {
          case Confirmed(id) =>
            chat := chat + [Message(call.chunks[i], true)];
            delivery := delivery.(messageIds := delivery.messageIds + [id],
                                  attemptCount := delivery.attemptCount + 1, chunksSent := i + 1);
            saved := delivery;
          case Unrecorded =>
            chat := chat + [Message(call.chunks[i], false)];
            return Interrupted;
          case Ambiguous =>
            chat := chat + [Message(call.chunks[i], false)];
            saved := delivery.(status := if call.lastRetry then Failed else Retrying);
            return TransientError;
          case Unreachable =>
            saved := delivery.(status := if call.lastRetry then Failed else Retrying);
            return TransientError;
          case Refused =>
            saved := delivery.(status := Failed);
            return PermanentError;
          case Died =>
            return Interrupted;
        }
      }
      if call.diesBeforeFinalSave {
        return Interrupted;
      }
      saved := delivery.(status := Sent, telegramMessageId := FirstId(delivery.messageIds));
      return Delivered(|call.chunks|);
    }
  }
}
