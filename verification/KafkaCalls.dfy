/** What one attempt and one dead letter leave behind, said by their effects: which
    entry is new, which letter went out, and when the caller sees success. */
module KafkaCalls {
  import opened DeadLetterIds
  import opened RemoteEffects
  import opened EventLog

  /** The store gained exactly this entry. */
  ghost predicate Gains(before: map<string, Entry>, after: map<string, Entry>, id: string, e: Entry) {
    && after.Keys == before.Keys + {id} && id in after && after[id] == e
    && (forall k | k in before && k != id :: after[k] == before[k])
  }

  /** An attempt stores a valid event that the table can hold and the lookup did not
      find, once and under its own id, unless the write is refused; it succeeds if the
      event was found or its write was answered. Nothing else changes. */
  ghost predicate Attempted(s: World, t: World, ok: bool, r: RecordKey, v: Value, o: Outcome) {
    var known := s.store + o.foreign;
    var looked := !v.envelope.Invalid? && !o.lookupFails;
    var found := looked && v.envelope.Identified? && v.envelope.eventId in known;
    var stores := looked && !found && v.storable && !o.save.Refused?;
    && t == s.(store := t.store, writes := t.writes)
    && (stores ==>
          exists id ::
            && (v.envelope.Identified? ==> id == v.envelope.eventId) && (v.envelope.Anonymous? ==> id == o.generatedId)
            && Gains(known, t.store, id, Entry(Processed, r, 1)) && t.writes == s.writes + [Write(id, r)])
    && (!stores ==> t.store == known && t.writes == s.writes)
    && (ok <==> found || (stores && o.save.Applied?))
  }

  lemma AttemptStoresOnce(s: World, r: RecordKey, v: Value, o: Outcome)
    ensures var a := ProcessRecord(s, r, v, o);
            Attempted(s, a.world, a.ok, r, v, o)
  {
    var t := ProcessRecord(s, r, v, o).world;
    var id := if v.envelope.Identified? then v.envelope.eventId else o.generatedId;
    if t.writes != s.writes { assert Gains(s.store + o.foreign, t.store, id, Entry(Processed, r, 1)); }
  }

  /** A dead letter goes out with the record's own value and count unless it cannot be
      sent; only after its publication was answered, and if the table can hold it, is
      its entry filed. It succeeds if that was answered as well. */
  ghost predicate Lettered(s: World, t: World, ok: bool, r: RecordKey, v: Value, attempts: nat, o: Outcome) {
    var sends := !v.letter.Unsendable? && !o.publish.Refused?;
    var files := v.letter.Fileable? && o.publish.Applied? && !o.file.Refused?;
    && t == s.(store := t.store, letters := t.letters, filings := t.filings)
    && (sends ==>
          && |t.letters| == |s.letters| + 1 && s.letters <= t.letters
          && var l := t.letters[|s.letters|];
             l.key == DeadLetterId(r) && l.source == r && l.original == v && l.attempts == attempts)
    && (!sends ==> t.letters == s.letters)
    && (files ==>
          t.filings == s.filings + {r} && Gains(s.store, t.store, DeadLetterId(r), Entry(DeadLettered, r, attempts)))
    && (!files ==> t.filings == s.filings && t.store == s.store)
    && (ok <==> files && o.file.Applied?)
  }

  lemma LetterGoesFirst(s: World, r: RecordKey, v: Value, attempts: nat, o: Outcome)
    ensures var d := DeadLetter(s, r, v, attempts, o);
            Lettered(s, d.world, d.ok, r, v, attempts, o)
  {
    hide DeadLetterId;
    var t := DeadLetter(s, r, v, attempts, o).world;
    if t.filings != s.filings || t.store != s.store {
      assert t.store.Keys == s.store.Keys + {DeadLetterId(r)};
    }
  }
}
