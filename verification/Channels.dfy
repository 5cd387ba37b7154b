/** The simulation's bounded queue: its operations on values, what they keep, and the class. */
module Channels {
  import opened Prelude
  import opened SimTypes

  /** What passed through one queue during one step. */
  datatype ChannelActivity = ChannelActivity(
    inputBatches: nat, inputTransactions: nat, outputBatches: nat, outputTransactions: nat,
    handoffBatches: nat)

  const NO_CHANNEL_ACTIVITY := ChannelActivity(0, 0, 0, 0, 0)

  datatype Channel = Channel(
    items: seq<Batch>, applied: nat, preview: Option<nat>, pending: Option<nat>, blockedForMs: nat,
    sentBatches: nat, sentTransactions: nat, receivedBatches: nat, receivedTransactions: nat,
    handoffs: nat, blockedMsTotal: nat, blockedSenders: nat)

  function Tx(b: Batch): nat { b.transactions }

  function Empty(capacity: nat): Channel {
    Channel([], capacity, None, None, 0, 0, 0, 0, 0, 0, 0, 0)
  }

  /** The queue never holds more than its applied capacity, a smaller capacity is pending only while the
      queue is above it, and the running totals account for exactly what is buffered. */
  predicate ChannelOk(c: Channel) {
    && |c.items| <= c.applied
    && c.preview == c.pending
    && (c.pending.Some? ==> c.pending.value < |c.items|)
    && c.sentBatches == c.receivedBatches + |c.items|
    && c.sentTransactions == c.receivedTransactions + Sum(c.items, Tx)
  }

  predicate CanSend(c: Channel) {
    c.applied != 0 && |c.items| < c.applied
  }

  /** Whether a capacity request changes anything. */
  predicate CapacityChanges(c: Channel, capacity: nat) {
    !(capacity == c.applied && c.preview.None? && c.pending.None?)
  }

  function WithRequestedCapacity(c: Channel, capacity: nat): Channel {
    if !CapacityChanges(c, capacity) then c
    else if capacity >= |c.items| then c.(applied := capacity, preview := None, pending := None)
    else c.(preview := Some(capacity), pending := Some(capacity))
  }

  function WithPendingApplied(c: Channel): Channel {
    if c.pending.Some? && |c.items| <= c.pending.value
    then c.(applied := c.pending.value, preview := None, pending := None)
    else c
  }

  function WithBlockedObserved(c: Channel, blocked: bool, progressed: bool): Channel {
    if blocked then
      c.(blockedSenders := 1,
         blockedForMs := if progressed then FIXED_STEP_MS else c.blockedForMs + FIXED_STEP_MS,
         blockedMsTotal := c.blockedMsTotal + FIXED_STEP_MS)
    else c.(blockedSenders := 0, blockedForMs := 0)
  }

  function WithRuntimeReset(c: Channel): Channel {
    Empty(Or(c.pending, c.applied))
  }

  /** How far a queue's running totals are ahead of the step's activity. */
  datatype LinkOffset = LinkOffset(
    sentBatches: int, sentTransactions: int, receivedBatches: int, receivedTransactions: int, handoffs: int)

  /** A queue together with the activity of the step in progress. */
  datatype Link = Link(channel: Channel, activity: ChannelActivity) {
    function Ahead(): LinkOffset {
      LinkOffset(channel.sentBatches - activity.inputBatches,
                 channel.sentTransactions - activity.inputTransactions,
                 channel.receivedBatches - activity.outputBatches,
                 channel.receivedTransactions - activity.outputTransactions,
                 channel.handoffs - activity.handoffBatches)
    }

    function RecordInput(b: Batch): Link {
      Link(channel.(sentBatches := channel.sentBatches + 1,
                    sentTransactions := channel.sentTransactions + b.transactions),
           activity.(inputBatches := activity.inputBatches + 1,
                     inputTransactions := activity.inputTransactions + b.transactions))
    }

    function RecordOutput(b: Batch): Link {
      Link(channel.(receivedBatches := channel.receivedBatches + 1,
                    receivedTransactions := channel.receivedTransactions + b.transactions),
           activity.(outputBatches := activity.outputBatches + 1,
                     outputTransactions := activity.outputTransactions + b.transactions))
    }

    function Send(b: Batch): Link
      requires CanSend(channel)
    {
      Link(channel.(items := channel.items + [b]), activity).RecordInput(b)
    }

    function Receive(): Link
      requires |channel.items| > 0
    {
      var out := Link(channel.(items := channel.items[1..]), activity).RecordOutput(channel.items[0]);
      out.(channel := WithPendingApplied(out.channel))
    }

    function Handoff(b: Batch): Link {
      var through := RecordInput(b).RecordOutput(b);
      Link(through.channel.(handoffs := through.channel.handoffs + 1),
           through.activity.(handoffBatches := through.activity.handoffBatches + 1))
    }
  }

  lemma SendKeeps(l: Link, b: Batch)
    requires ChannelOk(l.channel) && CanSend(l.channel)
    ensures ChannelOk(l.Send(b).channel) && l.Send(b).Ahead() == l.Ahead()
  {
    SumAppend(l.channel.items, b, Tx);
  }

  lemma ReceiveKeeps(l: Link)
    requires ChannelOk(l.channel) && |l.channel.items| > 0
    ensures ChannelOk(l.Receive().channel) && l.Receive().Ahead() == l.Ahead()
    ensures l.Receive().channel.items == l.channel.items[1..]
  {
    SumHead(l.channel.items, Tx);
  }

  lemma HandoffKeeps(l: Link, b: Batch)
    requires ChannelOk(l.channel)
    ensures ChannelOk(l.Handoff(b).channel) && l.Handoff(b).Ahead() == l.Ahead()
  {
  }

  /** A deferred capacity takes effect with the very receive that brings the queue down to it, and
      until then the old capacity stays in force. */
  lemma PendingCapacityTakesEffect(l: Link)
    requires ChannelOk(l.channel) && |l.channel.items| > 0 && l.channel.pending.Some?
    ensures var c := l.Receive().channel; var p := l.channel.pending.value;
            if |c.items| == p then c.applied == p && c.pending == None
            else |c.items| > p && c.applied == l.channel.applied && c.pending == Some(p)
  {
  }

  lemma RequestKeeps(c: Channel, capacity: nat)
    requires ChannelOk(c)
    ensures var r := WithRequestedCapacity(c, capacity);
            && ChannelOk(r)
            && r.items == c.items
            && ((r.applied == capacity && r.pending == None) || (r.applied == c.applied && r.pending == Some(capacity)))
            && (CapacityChanges(c, capacity) <==> r != c || c.pending == Some(capacity))
  {
  }

  class StatefulChannel {
    var items: seq<Batch>
    var appliedCapacity: nat
    var previewCapacity: Option<nat>
    var pendingCapacity: Option<nat>
    var blockedForMs: nat
    var sentBatchesTotal: nat
    var sentTransactionsTotal: nat
    var receivedBatchesTotal: nat
    var receivedTransactionsTotal: nat
    var handoffBatchesTotal: nat
    var blockedMsTotal: nat
    var blockedSenders: nat

    ghost function View(): Channel
      reads this
    {
      Channel(items, appliedCapacity, previewCapacity, pendingCapacity, blockedForMs, sentBatchesTotal,
              sentTransactionsTotal, receivedBatchesTotal, receivedTransactionsTotal, handoffBatchesTotal,
              blockedMsTotal, blockedSenders)
    }

    constructor (capacity: nat)
      ensures View() == Empty(capacity) && ChannelOk(View())
    {
      items, appliedCapacity, previewCapacity, pendingCapacity := [], capacity, None, None;
      blockedForMs, sentBatchesTotal, sentTransactionsTotal := 0, 0, 0;
      receivedBatchesTotal, receivedTransactionsTotal, handoffBatchesTotal := 0, 0, 0;
      blockedMsTotal, blockedSenders := 0, 0;
    }

    method BufferedTransactions() returns (total: nat)
      ensures total == Sum(items, Tx)
    {
      total := 0;
      for i := 0 to |items|
        invariant total == Sum(items[..i], Tx)
      {
        assert items[..i + 1] == items[..i] + [items[i]];
        SumAppend(items[..i], items[i], Tx);
        total := total + items[i].transactions;
      }
      assert items[..|items|] == items;
    }

    method RequestCapacity(capacity: nat) returns (changed: bool)
      modifies this
      ensures changed == old(CapacityChanges(View(), capacity))
      ensures View() == WithRequestedCapacity(old(View()), capacity)
    {
      if capacity == appliedCapacity && previewCapacity == None && pendingCapacity == None {
        return false;
      }
      if capacity >= |items| {
        appliedCapacity, previewCapacity, pendingCapacity := capacity, None, None;
        return true;
      }
      previewCapacity, pendingCapacity := Some(capacity), Some(capacity);
      return true;
    }

    method Send(item: Batch, activity: ChannelActivity) returns (sent: bool, after: ChannelActivity)
      modifies this
      ensures sent == old(CanSend(View()))
      ensures sent ==> Link(View(), after) == old(Link(View(), activity).Send(item))
      ensures !sent ==> View() == old(View()) && after == activity
    {
      if appliedCapacity == 0 || |items| >= appliedCapacity {
        return false, activity;
      }
      items := items + [item];
      after := RecordInput(item, activity);
      sent := true;
    }

    method Receive(activity: ChannelActivity) returns (item: Option<Batch>, after: ChannelActivity)
      modifies this
      ensures item == old(if |items| == 0 then None else Some(items[0]))
      ensures item.None? ==> View() == old(View()) && after == activity
      ensures item.Some? ==> |old(items)| > 0 && Link(View(), after) == old(Link(View(), activity)).Receive()
    {
      if |items| == 0 {
        return None, activity;
      }
      item := Some(items[0]);
      items := items[1..];
      after := RecordOutput(item.value, activity);
      ApplyPendingCapacity();
    }

    method Handoff(item: Batch, activity: ChannelActivity) returns (after: ChannelActivity)
      modifies this
      ensures Link(View(), after) == old(Link(View(), activity)).Handoff(item)
    {
      after := RecordInput(item, activity);
      after := RecordOutput(item, after);
      handoffBatchesTotal := handoffBatchesTotal + 1;
      after := after.(handoffBatches := after.handoffBatches + 1);
    }

    method ObserveBlocked(blocked: bool, senderProgressed: bool)
      modifies this
      ensures View() == WithBlockedObserved(old(View()), blocked, senderProgressed)
    {
      blockedSenders := if blocked then 1 else 0;
      if blocked {
        blockedForMs := if senderProgressed then FIXED_STEP_MS else blockedForMs + FIXED_STEP_MS;
        blockedMsTotal := blockedMsTotal + FIXED_STEP_MS;
      } else {
        blockedForMs := 0;
      }
    }

    method ResetRuntime()
      modifies this
      ensures View() == WithRuntimeReset(old(View()))
    {
      items := [];
      if pendingCapacity.Some? {
        appliedCapacity := pendingCapacity.value;
      }
      previewCapacity, pendingCapacity, blockedForMs, sentBatchesTotal, sentTransactionsTotal := None, None, 0, 0, 0;
      receivedBatchesTotal, receivedTransactionsTotal, handoffBatchesTotal, blockedMsTotal, blockedSenders
        := 0, 0, 0, 0, 0;
    }

    method RecordInput(item: Batch, activity: ChannelActivity) returns (after: ChannelActivity)
      modifies `sentBatchesTotal, `sentTransactionsTotal
      ensures Link(View(), after) == old(Link(View(), activity)).RecordInput(item)
    {
      sentBatchesTotal := sentBatchesTotal + 1;
      sentTransactionsTotal := sentTransactionsTotal + item.transactions;
      after := activity.(inputBatches := activity.inputBatches + 1,
                         inputTransactions := activity.inputTransactions + item.transactions);
    }

    method RecordOutput(item: Batch, activity: ChannelActivity) returns (after: ChannelActivity)
      modifies `receivedBatchesTotal, `receivedTransactionsTotal
      ensures Link(View(), after) == old(Link(View(), activity)).RecordOutput(item)
    {
      receivedBatchesTotal := receivedBatchesTotal + 1;
      receivedTransactionsTotal := receivedTransactionsTotal + item.transactions;
      after := activity.(outputBatches := activity.outputBatches + 1,
                         outputTransactions := activity.outputTransactions + item.transactions);
    }

    method ApplyPendingCapacity()
      modifies this
      ensures View() == WithPendingApplied(old(View()))
    {
      if pendingCapacity.Some? && |items| <= pendingCapacity.value {
        appliedCapacity, previewCapacity, pendingCapacity := pendingCapacity.value, None, None;
      }
    }
  }
}
