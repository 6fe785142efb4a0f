/** The informer handlers and their filters, on the caches as values. */
module Events {
  import opened Mesh
  import opened Names
  import opened PassSpec

  /** A broker event, with its class annotation when it carries one. */
  datatype BrokerEvent = BrokerEvent(uid: UID, ref: KReference, class_: Option<string>)

  /** A trigger event, with the broker name of its spec. */
  datatype TriggerEvent = TriggerEvent(uid: UID, ref: KReference, broker: string)

  /** How a handler ends: `Panicked` is a write through a nil map or a read through a nil binding. */
  datatype Handled = Panicked | Ignored | Recorded

  function TriggerKey(ev: TriggerEvent): string {
    Join(ev.ref.namespace, ev.broker)
  }

  predicate Annotated(ev: BrokerEvent) {
    ev.class_.Some? && ev.class_.value != ""
  }

  predicate AcceptsBroker(s: Cache, ev: BrokerEvent) {
    Annotated(ev) && ev.class_.value in s.brokers
  }

  predicate AcceptsTrigger(s: Cache, ev: TriggerEvent) {
    TriggerKey(ev) in s.triggers
  }

  function Record(m: map<string, Entry>, k: string, uid: UID, ref: KReference): map<string, Entry>
    requires k in m
  {
    m[k := Entry(m[k].refs[uid := ref], m[k].binding)]
  }

  function BrokerHandled(s: Cache, ev: BrokerEvent): (Handled, Cache) {
    if !Annotated(ev) then (Ignored, s)
    else if ev.class_.value !in s.brokers then (Panicked, s)
    else (Recorded, s.(brokers := Record(s.brokers, ev.class_.value, ev.uid, ev.ref)))
  }

  function TriggerHandled(s: Cache, ev: TriggerEvent): (Handled, Cache) {
    if TriggerKey(ev) !in s.triggers then (Panicked, s)
    else (Recorded, s.(triggers := Record(s.triggers, TriggerKey(ev), ev.uid, ev.ref)))
  }
}
