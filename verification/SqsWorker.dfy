/** The SQS consumer (services/event_worker/app/main.py, `EventWorker`): store,
    then delete; anything else leaves the message for redelivery. */
module SqsWorker {
  import opened Repository
  import opened RemoteEffects

  /** A field of the JSON body: absent, a string, or something validation refuses. */
  datatype Field = Absent | Text(value: string) | Wrong

  /** The body as far as parsing can tell. `valid` covers the remaining envelope
      fields; `known` says whether the event type is one the worker knows. */
  datatype Body = Missing | NotJson | NotAnObject | Object(eventId: Field, valid: bool, known: bool)

  /** What stays the same however often the message is delivered. */
  datatype Message = Message(body: Body, messageId: string)

  /** What the queue issues anew with every delivery; the count is None if the
      attribute cannot be read as an integer. */
  datatype Receipt = Receipt(handle: string, count: Option<int>)

  predicate Blank(s: string) {
    forall c | c in s :: c == ' ' || c == '\t' || c == '\n' || c == '\r'
  }

  /** `parse_event_message`: the event id of the body, or the queue's message id.
      The third case, a generated id, needs a message without an id. */
  datatype Parsed = Invalid | WithId(id: string) | Generated

  function Parse(m: Message): Parsed {
    match m.body
    case Missing => Invalid
    case NotJson => Invalid
    case NotAnObject => Invalid
    case Object(eventId, valid, _) =>
      if !valid || eventId.Wrong? then Invalid
      else if eventId.Text? then WithId(eventId.value)
      else if m.messageId != "" then WithId(m.messageId)
      else Generated
  }

  /** The key a message's event is stored under, if it can be processed at all. */
  function KeyOf(m: Message): Option<string> {
    if Parse(m).WithId? && !Blank(m.messageId) then Some(Parse(m).id) else None
  }

  /** This delivery of a message gets as far as the store. */
  predicate Accepted(m: Message, receipt: Receipt) {
    KeyOf(m).Some? && receipt.count.Some? && !Blank(receipt.handle)
  }

  datatype Result = Processed | Ignored
  datatype Entry = Entry(result: Result, receiveCount: int)

  function ResultOf(m: Message): Result {
    if m.body.Object? && m.body.known then Processed else Ignored
  }

  datatype Queue = Queue(pending: set<Message>, deleted: set<Message>, store: map<string, Entry>)

  /** One call of `process_message`; the boolean is false when it raised. */
  datatype Step = Step(queue: Queue, ok: bool)

  function Process(q: Queue, m: Message, receipt: Receipt, save: Effect, delete: Effect): Step {
    if !Accepted(m, receipt) || save.Refused? then Step(q, false)
    else
      var q1 := q.(store := q.store[KeyOf(m).value := Entry(ResultOf(m), receipt.count.value)]);
      if save.LostReply? || delete.Refused? then Step(q1, false)
      else Step(q1.(pending := q.pending - {m}, deleted := q.deleted + {m}), delete.Applied?)
  }

  // ------------------------------------------------------- what a delivery does, plainly

  /** A body that is a valid envelope, in a message with an id. */
  ghost predicate Sound(m: Message) {
    m.body.Object? && m.body.valid && !m.body.eventId.Wrong? && !Blank(m.messageId)
  }

  /** The event's own id if the body carries one, else the message's. */
  ghost predicate FiledUnder(m: Message, key: string) {
    && Sound(m)
    && (m.body.eventId.Text? ==> key == m.body.eventId.value)
    && (m.body.eventId.Absent? ==> key == m.messageId)
  }

  lemma KeyIsTheEventId(m: Message)
    ensures KeyOf(m).Some? <==> Sound(m)
    ensures forall key :: KeyOf(m) == Some(key) <==> FiledUnder(m, key)
  {
    if m.messageId == "" { assert Blank(m.messageId); }
  }

  /** A sound message under a usable receipt is stored and then deleted, as far as the
      two effects go; anything else leaves the queue and the store alone. */
  ghost predicate Delivered(
    q: Queue, t: Queue, ok: bool, m: Message, receipt: Receipt, save: Effect, delete: Effect)
  {
    if !Sound(m) || receipt.count.None? || Blank(receipt.handle) || save.Refused? then t == q && !ok
    else
      && (exists key :: FiledUnder(m, key) && key in t.store && t.store.Keys == q.store.Keys + {key}
                        && t.store[key].receiveCount == receipt.count.value
                        && (t.store[key].result.Processed? <==> m.body.known)
                        && forall other | other in q.store && other != key :: t.store[other] == q.store[other])
      && (save.Applied? && !delete.Refused? ==> t.pending == q.pending - {m} && t.deleted == q.deleted + {m})
      && (save.LostReply? || delete.Refused? ==> t.pending == q.pending && t.deleted == q.deleted)
      && (ok <==> save.Applied? && delete.Applied?)
  }

  lemma DeliveryStoresThenDeletes(q: Queue, m: Message, receipt: Receipt, save: Effect, delete: Effect)
    ensures var r := Process(q, m, receipt, save, delete);
            Delivered(q, r.queue, r.ok, m, receipt, save, delete)
  {
    hide KeyOf, Parse, Blank;
    KeyIsTheEventId(m);
    var t := Process(q, m, receipt, save, delete).queue;
    if Accepted(m, receipt) && !save.Refused? {
      var key := KeyOf(m).value;
      assert t.store.Keys == q.store.Keys + {key};
      assert FiledUnder(m, key);
    }
  }

  class EventWorker {
    var pending: set<Message>
    var deleted: set<Message>
    var store: map<string, Entry>

    ghost function View(): Queue
      reads this
    {
      Queue(pending, deleted, store)
    }

    method ProcessMessage(m: Message, receipt: Receipt, save: Effect, delete: Effect) returns (ok: bool)
      modifies this
      ensures Step(View(), ok) == Process(old(View()), m, receipt, save, delete)
      ensures Delivered(old(View()), View(), ok, m, receipt, save, delete)
      ensures Accounted(old(View())) && m in old(pending) ==> Accounted(View()) && Keeps(old(View()), View())
    {
      hide Delivered, Accounted, Keeps;
      DeliveryStoresThenDeletes(View(), m, receipt, save, delete);
      StepKeepsAccounts(View(), Deliver(m, receipt, save, delete));
      var parsed := Parse(m);
      if parsed.Invalid? || receipt.count.None? || Blank(m.messageId) || Blank(receipt.handle) {
        return false;
      }
      var result := if m.body.known then Processed else Ignored;
      if save.Refused? {
        return false;
      }
      store := store[parsed.id := Entry(result, receipt.count.value)];
      if save.LostReply? || delete.Refused? {
        return false;
      }
      pending := pending - {m};
      deleted := deleted + {m};
      ok := delete.Applied?;
    }
  }

  // --------------------------------------------------------------------------- runs

  /** Arrive: a message is put on the queue. Deliver: any pending message, any
      number of times, each time under a new receipt and with any fate of the two
      effects; a crash between them is a lost reply followed by nothing. */
  datatype Event = Arrive(m: Message) | Deliver(m: Message, receipt: Receipt, save: Effect, delete: Effect)

  ghost predicate Possible(q: Queue, e: Event) {
    e.Deliver? ==> e.m in q.pending
  }

  ghost function Apply(q: Queue, e: Event): Queue {
    match e
    case Arrive(m) => q.(pending := q.pending + {m})
    case Deliver(m, receipt, save, delete) => Process(q, m, receipt, save, delete).queue
  }

  ghost predicate Run(q: Queue, events: seq<Event>, t: Queue)
    decreases |events|
  {
    if events == [] then q == t else Possible(q, events[0]) && Run(Apply(q, events[0]), events[1..], t)
  }

  /** The entry under a key tells what one of the queue's messages says. */
  ghost predicate Explains(q: Queue, m: Message, key: string)
    requires key in q.store
  {
    (m in q.pending || m in q.deleted) && KeyOf(m) == Some(key) && ResultOf(m) == q.store[key].result
  }

  /** Deleted messages are stored; every entry is some message's own. */
  ghost predicate Accounted(q: Queue) {
    && (forall m | m in q.deleted :: KeyOf(m).Some? && KeyOf(m).value in q.store)
    && (forall key | key in q.store :: exists m :: Explains(q, m, key))
  }

  /** Messages are never dropped without their event being stored. */
  ghost predicate Keeps(q: Queue, t: Queue) {
    && (forall m | m in q.pending :: m in t.pending || (m in t.deleted && KeyOf(m).Some? && KeyOf(m).value in t.store))
    && q.deleted <= t.deleted && q.store.Keys <= t.store.Keys
  }

  lemma StepKeepsAccounts(q: Queue, e: Event)
    ensures Accounted(q) && Possible(q, e) ==> Accounted(Apply(q, e)) && Keeps(q, Apply(q, e))
  {
    hide KeyOf, ResultOf;
    if Accounted(q) && Possible(q, e) {
      var t := Apply(q, e);
      forall key | key in t.store ensures exists m :: Explains(t, m, key) {
        if key in q.store && t.store[key] == q.store[key] {
          var m :| Explains(q, m, key);
          assert Explains(t, m, key);
        } else {
          assert Explains(t, e.m, key);
        }
      }
    }
  }

  /** At least once: under any redelivery, refused or half-done effects, a message
      leaves the queue only with its event stored, under a key that depends on the
      message alone; so redeliveries never add an entry beyond that one. */
  lemma {:induction false} DeletedIsStored(q: Queue, events: seq<Event>, t: Queue)
    requires Accounted(q) && Run(q, events, t)
    ensures Accounted(t) && Keeps(q, t)
    decreases |events|
  {
    hide Accounted, Apply, KeyOf;
    if events != [] {
      StepKeepsAccounts(q, events[0]);
      DeletedIsStored(Apply(q, events[0]), events[1..], t);
    }
  }

  lemma {:induction false} ImageIsNoLarger(keys: set<string>, messages: set<Message>)
    requires forall key | key in keys :: exists m :: m in messages && KeyOf(m) == Some(key)
    ensures |keys| <= |messages|
    decreases |keys|
  {
    hide KeyOf;
    if keys != {} {
      var key :| key in keys;
      var m :| m in messages && KeyOf(m) == Some(key);
      var fewer, rest := keys - {key}, messages - {m};
      forall k | k in fewer ensures exists n :: n in rest && KeyOf(n) == Some(k) {
        var n :| n in messages && KeyOf(n) == Some(k);
        assert n in rest;
      }
      ImageIsNoLarger(fewer, rest);
      assert |fewer| == |keys| - 1 && |rest| == |messages| - 1;
    }
  }

  /** However often messages are redelivered, and under whatever receipts, a store
      that started empty holds at most one entry per message that ever arrived. */
  lemma OneEntryPerMessage(events: seq<Event>, t: Queue)
    requires Run(Queue({}, {}, map[]), events, t)
    ensures |t.store| <= |t.pending + t.deleted|
    ensures forall m | m in t.deleted :: KeyOf(m).Some? && KeyOf(m).value in t.store
  {
    hide KeyOf, Run;
    DeletedIsStored(Queue({}, {}, map[]), events, t);
    forall key | key in t.store.Keys ensures exists m :: m in t.pending + t.deleted && KeyOf(m) == Some(key) {
      var m :| Explains(t, m, key);
      assert m in t.pending + t.deleted;
    }
    ImageIsNoLarger(t.store.Keys, t.pending + t.deleted);
    assert |t.store| == |t.store.Keys|;
  }

  /** On every run from an empty store: a deleted message had a valid envelope, and its
      entry is under the event id its body carries, or under its message id if the
      body carries none; and every entry is there for such a message and says what
      that message says. */
  lemma EntriesAreUnderEventIds(events: seq<Event>, t: Queue)
    requires Run(Queue({}, {}, map[]), events, t)
    ensures forall m | m in t.deleted :: Sound(m)
    ensures forall m, id | m in t.deleted && m.body.Object? && m.body.eventId == Text(id) :: id in t.store
    ensures forall m | m in t.deleted && m.body.Object? && m.body.eventId.Absent? :: m.messageId in t.store
    ensures forall key | key in t.store ::
              exists m :: m in t.pending + t.deleted && FiledUnder(m, key)
                          && (t.store[key].result.Processed? <==> m.body.known)
  {
    hide KeyOf, Run, Blank;
    DeletedIsStored(Queue({}, {}, map[]), events, t);
    forall m | m in t.deleted ensures Sound(m) && FiledUnder(m, KeyOf(m).value) && KeyOf(m).value in t.store {
      KeyIsTheEventId(m);
    }
    forall key | key in t.store
      ensures exists m :: m in t.pending + t.deleted && FiledUnder(m, key)
                          && (t.store[key].result.Processed? <==> m.body.known)
    {
      var m :| Explains(t, m, key);
      KeyIsTheEventId(m);
      assert m in t.pending + t.deleted && FiledUnder(m, key);
    }
  }

  /** One event sent in several messages has one entry: with two deleted messages that
      carry the same event id, there are fewer entries than messages. */
  lemma SameEventSharesItsEntry(events: seq<Event>, t: Queue, a: Message, b: Message, id: string)
    requires Run(Queue({}, {}, map[]), events, t) && a in t.deleted && b in t.deleted && a != b
    requires a.body.Object? && a.body.eventId == Text(id) && b.body.Object? && b.body.eventId == Text(id)
    ensures id in t.store && |t.store| < |t.pending + t.deleted|
  {
    hide KeyOf, Run, Blank;
    DeletedIsStored(Queue({}, {}, map[]), events, t);
    KeyIsTheEventId(a);
    KeyIsTheEventId(b);
    var all := t.pending + t.deleted;
    forall key | key in t.store.Keys ensures exists m :: m in all - {b} && KeyOf(m) == Some(key) {
      var m :| Explains(t, m, key);
      if m == b { assert a in all - {b} && KeyOf(a) == Some(key); } else { assert m in all - {b}; }
    }
    ImageIsNoLarger(t.store.Keys, all - {b});
    assert |t.store| == |t.store.Keys| && |all - {b}| == |all| - 1;
  }
}
