/**
 * The notification listener: each posted notification that is not a group summary or a bubble,
 * not older than one already seen under its key, on a known channel and not of category
 * "service", becomes a record `when,key,package,vibrate,importance,category` for the logging
 * service. While the listener is not bound to that service, records wait in a queue and a bind
 * is requested; once connected, the queue is delivered in order and cleared.
 *
 * The notification channels of the active notifications, whether the logging service is running
 * and what `bindService` answers are parameters. A record is delivered when it is handed to the
 * service's messenger.
 */
module NotificationListener {
  import opened Wrappers
  import Text

  const FlagGroupSummary: bv32 := 0x200
  const FlagBubble: bv32 := 0x1000
  const ServiceCategory: string := "service"

  /** A notification channel as the ranking reports it. */
  datatype Channel = Channel(id: string, shouldVibrate: bool, importance: int)

  /** The fields of a posted `StatusBarNotification` the listener reads. */
  datatype StatusBarNotification = StatusBarNotification(
    key: string,
    packageName: string,
    channelId: string,
    category: Option<string>,
    when: int,
    flags: bv32)

  /** The listener's fields, with the records delivered and the bind requests made. */
  datatype ListenerState = ListenerState(
    keyLastNotificationWhen: map<string, int>,
    boundToLogService: bool,
    bindingToLogService: bool,
    notificationQueue: seq<string>,
    delivered: seq<string>,
    bindRequests: nat)

  const Initial := ListenerState(map[], false, false, [], [], 0)

  /** `channels.find { it.id == channelId }` */
  function FindChannel(channels: seq<Channel>, channelId: string): (r: Option<Channel>)
    ensures r.Some? ==> r.value in channels && r.value.id == channelId
    ensures r.None? <==> forall i :: 0 <= i < |channels| ==> channels[i].id != channelId
  {
    if |channels| == 0 then None
    else if channels[0].id == channelId then Some(channels[0])
    else
      assert forall i :: 1 <= i < |channels| ==> channels[i] == channels[1..][i - 1];
      FindChannel(channels[1..], channelId)
  }

  /** Kotlin's `"$b"` for a Boolean. */
  function BoolText(b: bool): string
  {
    if b then "true" else "false"
  }

  /** Kotlin's `"$s"` for a String?: `null` prints as "null". */
  function NullableText(s: Option<string>): string
  {
    if s.Some? then s.value else "null"
  }

  /** The record sent for a notification on a channel. */
  function FormatRecord(n: StatusBarNotification, c: Channel): string
  {
    Text.Join([Text.IntToString(n.when), n.key, n.packageName, BoolText(c.shouldVibrate),
               Text.IntToString(c.importance), NullableText(n.category)], ',')
  }

  /** The record splits back into its six fields when the key, package and category hold no comma. */
  lemma RecordFields(n: StatusBarNotification, c: Channel)
    requires ',' !in n.key && ',' !in n.packageName && ',' !in NullableText(n.category)
    ensures Text.Split(FormatRecord(n, c), ',') ==
      [Text.IntToString(n.when), n.key, n.packageName, BoolText(c.shouldVibrate),
       Text.IntToString(c.importance), NullableText(n.category)]
  {
    var parts := [Text.IntToString(n.when), n.key, n.packageName, BoolText(c.shouldVibrate),
                  Text.IntToString(c.importance), NullableText(n.category)];
    NumberHasNoComma(n.when);
    NumberHasNoComma(c.importance);
    Text.SplitJoin(parts, ',');
  }

  lemma NumberHasNoComma(i: int)
    ensures ',' !in Text.IntToString(i)
  {
    var digits := Text.NatToString(if i < 0 then -i else i);
    assert forall k :: 0 <= k < |digits| ==> Text.IsDigit(digits[k]);
  }

  /** A group summary or a bubble. */
  predicate Ignored(n: StatusBarNotification)
  {
    n.flags & (FlagGroupSummary | FlagBubble) != 0
  }

  /** A notification no newer than the last one seen under its key; a `when` of 0 is never stale. */
  predicate Stale(st: ListenerState, n: StatusBarNotification)
  {
    n.key in st.keyLastNotificationWhen && n.when != 0 && st.keyLastNotificationWhen[n.key] >= n.when
  }

  /** `queueAndBind`: queue the record, and request a bind unless bound, binding, or the service is not running. */
  function Enqueue(st: ListenerState, item: string, serviceRunning: bool, bindResult: bool): ListenerState
  {
    var queued := st.(notificationQueue := st.notificationQueue + [item]);
    if !st.boundToLogService && !st.bindingToLogService then
      if !serviceRunning then queued
      else queued.(bindingToLogService := bindResult, bindRequests := st.bindRequests + 1)
    else queued
  }

  /** `sendToSensor`: hand the record to the service when bound, queue it otherwise. */
  function Send(st: ListenerState, data: string, serviceRunning: bool, bindResult: bool): ListenerState
  {
    if !st.boundToLogService then Enqueue(st, data, serviceRunning, bindResult)
    else st.(delivered := st.delivered + [data])
  }

  /** `onNotificationPosted` */
  function Posted(st: ListenerState, sbn: Option<StatusBarNotification>, channels: seq<Channel>,
                  serviceRunning: bool, bindResult: bool): ListenerState
  {
    if sbn.None? then st
    else
      var n := sbn.value;
      if Ignored(n) then st
      else if Stale(st, n) then st
      else
        var seen := st.(keyLastNotificationWhen := st.keyLastNotificationWhen[n.key := n.when]);
        var channel := FindChannel(channels, n.channelId);
        if channel.None? then seen
        else if n.category == Some(ServiceCategory) then seen
        else Send(seen, FormatRecord(n, channel.value), serviceRunning, bindResult)
  }

  /** `onServiceConnected`: bound, then `consumeQueue`. */
  function Connected(st: ListenerState): ListenerState
  {
    st.(boundToLogService := true, delivered := st.delivered + st.notificationQueue, notificationQueue := [])
  }

  /** `onServiceDisconnected` */
  function Disconnected(st: ListenerState): ListenerState
  {
    st.(boundToLogService := false)
  }

  /** `onCreate`: a bind is requested when the service runs; the binding flag is not set. */
  function Created(st: ListenerState, serviceRunning: bool): ListenerState
  {
    if serviceRunning then st.(bindRequests := st.bindRequests + 1) else st
  }

  /** `onDestroy`: unbind when bound. */
  function Destroyed(st: ListenerState): ListenerState
  {
    if st.boundToLogService then st.(boundToLogService := false) else st
  }

  /** The records handed on or still waiting, in order. */
  function Outbox(st: ListenerState): seq<string>
  {
    st.delivered + st.notificationQueue
  }

  /** The record a notification gives, if it passes every filter. */
  function RecordFor(st: ListenerState, n: StatusBarNotification, channels: seq<Channel>): Option<string>
  {
    if Ignored(n) || Stale(st, n) then None
    else match FindChannel(channels, n.channelId)
      case None => None
      case Some(c) => if n.category == Some(ServiceCategory) then None else Some(FormatRecord(n, c))
  }

  /** Nothing waits in the queue while the listener is bound. */
  ghost predicate Valid(st: ListenerState)
  {
    st.boundToLogService ==> st.notificationQueue == []
  }

  /**
   * While nothing waits in the queue as the listener is bound, a
   * posted notification adds exactly its record to the records handed on or waiting, and only
   * when it passes every filter: group summaries, bubbles, stale repeats, unknown channels and the
   * "service" category add nothing. Group summaries, bubbles and stale repeats change nothing at
   * all; any other notification becomes the last one seen under its key.
   */
  lemma PostedAddsItsRecord(st: ListenerState, n: StatusBarNotification, channels: seq<Channel>,
                            serviceRunning: bool, bindResult: bool)
    requires Valid(st)
    ensures var r := Posted(st, Some(n), channels, serviceRunning, bindResult);
      && Outbox(r) == Outbox(st) + (if RecordFor(st, n, channels).Some? then [RecordFor(st, n, channels).value] else [])
      && (Ignored(n) || Stale(st, n) ==> r == st)
      && (!Ignored(n) && !Stale(st, n) ==> r.keyLastNotificationWhen == st.keyLastNotificationWhen[n.key := n.when])
  {
    var seen := st.(keyLastNotificationWhen := st.keyLastNotificationWhen[n.key := n.when]);
    if RecordFor(st, n, channels).Some? {
      var data := RecordFor(st, n, channels).value;
      assert Outbox(Enqueue(seen, data, serviceRunning, bindResult)) == Outbox(st) + [data];
    }
  }

  /** The same notification posted twice gives one record, unless its `when` is 0. */
  lemma RepostIsIgnored(st: ListenerState, n: StatusBarNotification, channels: seq<Channel>,
                        serviceRunning: bool, bindResult: bool)
    requires n.when != 0 && !Ignored(n)
    ensures var mid := Posted(st, Some(n), channels, serviceRunning, bindResult);
      Posted(mid, Some(n), channels, serviceRunning, bindResult) == mid
  {
  }

  /** Connecting hands on the waiting records in their order and empties the queue. */
  lemma ConnectedDeliversQueue(st: ListenerState)
    ensures Connected(st).delivered == st.delivered + st.notificationQueue
    ensures Connected(st).notificationQueue == [] && Outbox(Connected(st)) == Outbox(st)
  {
  }

  /** Every event keeps the queue empty while bound. */
  lemma EventsKeepValid(st: ListenerState, sbn: Option<StatusBarNotification>, channels: seq<Channel>,
                        serviceRunning: bool, bindResult: bool)
    requires Valid(st)
    ensures Valid(Posted(st, sbn, channels, serviceRunning, bindResult))
    ensures Valid(Connected(st)) && Valid(Disconnected(st)) && Valid(Created(st, serviceRunning)) && Valid(Destroyed(st))
  {
    if sbn.Some? && !Ignored(sbn.value) && !Stale(st, sbn.value) {
      PostedAddsItsRecord(st, sbn.value, channels, serviceRunning, bindResult);
    }
  }

  /**
   * After a successful bind the binding flag stays set, also once the service disconnects, so
   * later records are queued without a new bind request; they wait for the system to reconnect.
   */
  lemma BindingFlagIsNeverCleared(st: ListenerState, item: string, serviceRunning: bool)
    requires !st.boundToLogService && !st.bindingToLogService && serviceRunning
    ensures var afterBind := Enqueue(st, item, serviceRunning, true);
      var afterDisconnect := Disconnected(Connected(afterBind));
      && afterDisconnect.bindingToLogService
      && Enqueue(afterDisconnect, item, serviceRunning, true).bindRequests == afterDisconnect.bindRequests
  {
  }

  /** `MyNotificationListenerService` */
  class NotificationListenerService {
    var keyLastNotificationWhen: map<string, int>
    var boundToLogService: bool
    var bindingToLogService: bool
    var notificationQueue: seq<string>
    var delivered: seq<string>
    var bindRequests: nat

    function Model(): ListenerState
      reads this
    {
      ListenerState(keyLastNotificationWhen, boundToLogService, bindingToLogService, notificationQueue, delivered, bindRequests)
    }

    constructor ()
      ensures Model() == Initial
    {
      keyLastNotificationWhen := map[];
      boundToLogService := false;
      bindingToLogService := false;
      notificationQueue := [];
      delivered := [];
      bindRequests := 0;
    }

    /** `onNotificationPosted` */
    method OnNotificationPosted(sbn: Option<StatusBarNotification>, channels: seq<Channel>,
                                serviceRunning: bool, bindResult: bool)
      modifies this
      ensures Model() == Posted(old(Model()), sbn, channels, serviceRunning, bindResult)
    {
      if sbn.None? {
        return;
      }
      var n := sbn.value;
      if n.flags & (FlagGroupSummary | FlagBubble) != 0 {
        return;
      }
      if n.key in keyLastNotificationWhen && n.when != 0 && keyLastNotificationWhen[n.key] >= n.when {
        return;
      }
      keyLastNotificationWhen := keyLastNotificationWhen[n.key := n.when];
      var currentChannel := FindChannel(channels, n.channelId);
      if currentChannel.None? {
        return;
      }
      if n.category == Some(ServiceCategory) {
        return;
      }
      SendToSensor(FormatRecord(n, currentChannel.value), serviceRunning, bindResult);
    }

    /** `sendToSensor` */
    method SendToSensor(data: string, serviceRunning: bool, bindResult: bool)
      modifies this
      ensures Model() == Send(old(Model()), data, serviceRunning, bindResult)
    {
      if !boundToLogService {
        QueueAndBind(data, serviceRunning, bindResult);
        return;
      }
      delivered := delivered + [data];
    }

    /** `queueAndBind` */
    method QueueAndBind(item: string, serviceRunning: bool, bindResult: bool)
      modifies this
      ensures Model() == Enqueue(old(Model()), item, serviceRunning, bindResult)
    {
      notificationQueue := notificationQueue + [item];
      if !boundToLogService && !bindingToLogService {
        if !serviceRunning {
          return;
        }
        bindingToLogService := true;
        bindRequests := bindRequests + 1;
        bindingToLogService := bindResult;
      }
    }

    /** `onServiceConnected` */
    method OnServiceConnected()
      modifies this
      ensures Model() == Connected(old(Model()))
    {
      boundToLogService := true;
      ConsumeQueue();
    }

    /** `consumeQueue`: each waiting record through `sendToSensor`, then the queue is cleared; called once bound. */
    method ConsumeQueue()
      requires boundToLogService
      modifies this
      ensures Model() == old(Model()).(delivered := old(delivered) + old(notificationQueue), notificationQueue := [])
    {
      var items := notificationQueue;
      for i := 0 to |items|
        invariant boundToLogService && notificationQueue == items
        invariant Model() == old(Model()).(delivered := old(delivered) + items[..i])
      {
        assert items[..i + 1] == items[..i] + [items[i]];
        SendToSensor(items[i], false, false);
      }
      assert items[..|items|] == items;
      notificationQueue := [];
    }

    /** `onServiceDisconnected` */
    method OnServiceDisconnected()
      modifies this
      ensures Model() == Disconnected(old(Model()))
    {
      boundToLogService := false;
    }

    /** `onCreate` */
    method OnCreate(serviceRunning: bool)
      modifies this
      ensures Model() == Created(old(Model()), serviceRunning)
    {
      if serviceRunning {
        bindRequests := bindRequests + 1;
      }
    }

    /** `onDestroy` */
    method OnDestroy()
      modifies this
      ensures Model() == Destroyed(old(Model()))
    {
      if boundToLogService {
        boundToLogService := false;
      }
    }
  }
}
