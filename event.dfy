/**
 * Event recording (service/event.go `onAdd`): every event the informer reports is stored in
 * the event table unless a row with the same key is already there. The key is the involved
 * object's name, kind and namespace, the reason, the creation time and the cluster; the type
 * and the message are not part of it.
 *
 * The event table is a sequence of rows; whether the existence query and the insert fail is
 * passed in, since both are database calls.
 */
module Events {
  /** The object an event is about (`InvolvedObject`). */
  datatype ObjectReference = ObjectReference(kind: string, namespace: string, name: string)

  /** A Kubernetes event as the informer delivers it. */
  datatype KubeEvent = KubeEvent(involved: ObjectReference, eventType: string, reason: string,
                                 message: string, created: int)

  /** A row of the event table (`model.Event`). */
  datatype EventRecord = EventRecord(name: string, kind: string, namespace: string, rtype: string,
                                     reason: string, message: string, eventTime: int, cluster: string)

  /** The columns the existence query compares. */
  datatype EventKey = EventKey(name: string, kind: string, namespace: string, reason: string,
                               eventTime: int, cluster: string)

  function KeyOf(r: EventRecord): EventKey {
    EventKey(r.name, r.kind, r.namespace, r.reason, r.eventTime, r.cluster)
  }

  function EventKeyOf(ev: KubeEvent, cluster: string): EventKey {
    EventKey(ev.involved.name, ev.involved.kind, ev.involved.namespace, ev.reason, ev.created, cluster)
  }

  /** The row assembled for a new event. */
  function RecordOf(ev: KubeEvent, cluster: string): (r: EventRecord)
    ensures KeyOf(r) == EventKeyOf(ev, cluster)
    ensures r.rtype == ev.eventType && r.message == ev.message
  {
    EventRecord(ev.involved.name, ev.involved.kind, ev.involved.namespace, ev.eventType,
                ev.reason, ev.message, ev.created, cluster)
  }

  /** `HasEvent` finds a row. */
  predicate HasKey(records: seq<EventRecord>, key: EventKey) {
    exists i :: 0 <= i < |records| && KeyOf(records[i]) == key
  }

  /** No two rows share a key. */
  predicate UniqueKeys(records: seq<EventRecord>) {
    forall i, j :: 0 <= i < j < |records| ==> KeyOf(records[i]) != KeyOf(records[j])
  }

  /** The table after `onAdd`: a failed lookup, an existing key and a failed insert all leave
      it as it was; otherwise the event's row is appended. */
  function AfterAdd(records: seq<EventRecord>, ev: KubeEvent, cluster: string,
                    lookupFails: bool, insertFails: bool): seq<EventRecord>
  {
    if lookupFails || HasKey(records, EventKeyOf(ev, cluster)) || insertFails then records
    else records + [RecordOf(ev, cluster)]
  }

  /** `onAdd` only ever adds: the old rows stay as they were, at most one row is added, and a
      new row is exactly the event's row, whose key was not stored before. */
  lemma AfterAddOnlyAdds(records: seq<EventRecord>, ev: KubeEvent, cluster: string,
                         lookupFails: bool, insertFails: bool)
    ensures var r := AfterAdd(records, ev, cluster, lookupFails, insertFails);
      && |records| <= |r| <= |records| + 1
      && r[..|records|] == records
      && (|r| == |records| + 1 <==> !lookupFails && !insertFails && !HasKey(records, EventKeyOf(ev, cluster)))
      && (|r| == |records| + 1 ==> r[|records|] == RecordOf(ev, cluster))
  {
  }

  /** After a successful lookup and insert the event's key is stored. */
  lemma AfterAddStores(records: seq<EventRecord>, ev: KubeEvent, cluster: string)
    ensures HasKey(AfterAdd(records, ev, cluster, false, false), EventKeyOf(ev, cluster))
  {
    if !HasKey(records, EventKeyOf(ev, cluster)) {
      var r := AfterAdd(records, ev, cluster, false, false);
      assert KeyOf(r[|records|]) == EventKeyOf(ev, cluster);
    }
  }

  /** Adding the same event again changes nothing once it is stored, whatever the database
      does on the second call: two deliveries add at most one row. */
  lemma AfterAddIdempotent(records: seq<EventRecord>, ev: KubeEvent, cluster: string,
                           lookupFails: bool, insertFails: bool)
    ensures AfterAdd(AfterAdd(records, ev, cluster, false, false), ev, cluster, lookupFails, insertFails) ==
      AfterAdd(records, ev, cluster, false, false)
    ensures |AfterAdd(AfterAdd(records, ev, cluster, false, false), ev, cluster, lookupFails, insertFails)| <= |records| + 1
  {
    AfterAddStores(records, ev, cluster);
  }

  /** The table never holds two rows with one key. */
  lemma AfterAddKeepsKeysUnique(records: seq<EventRecord>, ev: KubeEvent, cluster: string,
                                lookupFails: bool, insertFails: bool)
    requires UniqueKeys(records)
    ensures UniqueKeys(AfterAdd(records, ev, cluster, lookupFails, insertFails))
  {
    var r := AfterAdd(records, ev, cluster, lookupFails, insertFails);
    if |r| > |records| {
      forall i, j | 0 <= i < j < |r|
        ensures KeyOf(r[i]) != KeyOf(r[j])
      {
        if j == |records| {
          assert r[i] == records[i];
        }
      }
    }
  }

  /** An event that differs from a stored one only in its type or message is not stored. */
  lemma TypeAndMessageIgnored(records: seq<EventRecord>, ev: KubeEvent, cluster: string, i: nat,
                              lookupFails: bool, insertFails: bool)
    requires i < |records| && records[i] == RecordOf(ev, cluster)
    ensures forall t, m :: AfterAdd(records, ev.(eventType := t, message := m), cluster, lookupFails, insertFails) == records
  {
    forall t, m
      ensures AfterAdd(records, ev.(eventType := t, message := m), cluster, lookupFails, insertFails) == records
    {
      assert KeyOf(records[i]) == EventKeyOf(ev.(eventType := t, message := m), cluster);
    }
  }

  /** The event table. */
  class EventStore {
    var records: seq<EventRecord>

    constructor (records: seq<EventRecord>)
      ensures this.records == records
    {
      this.records := records;
    }

    /** `onAdd`: check for a row with the event's key, then insert the event's row. Errors
        of either database call are swallowed. */
    method OnAdd(ev: KubeEvent, cluster: string, lookupFails: bool, insertFails: bool)
      modifies this
      ensures records == AfterAdd(old(records), ev, cluster, lookupFails, insertFails)
    {
      if lookupFails {
        return;
      }
      var has := exists i :: 0 <= i < |records| && KeyOf(records[i]) == EventKeyOf(ev, cluster);
      if has {
        return;
      }
      var data := RecordOf(ev, cluster);
      if insertFails {
        return;
      }
      records := records + [data];
    }
  }
}
