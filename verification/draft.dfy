/**
 * The debounced draft store (src/lib/useDraft.ts).  `localStorage` is a map
 * from key to entry; a draft is a record of top-level properties, modelled as
 * a map from property name to value.  The debounce timer is the `pending`
 * write: the key and merged value its callback closed over, performed by the
 * explicit `Fire` event.  Write and remove failures are inputs (`ok`).
 */
module Draft {
  import opened Wrappers

  type Record<V> = map<string, V>

  /** What a storage key holds: a parseable draft, the empty string, or text that does not parse. */
  datatype Entry<V> = Saved(draft: Record<V>) | Blank | Unparsable

  datatype PendingWrite<V> = PendingWrite(key: string, value: Record<V>)

  /** `readDraft(key)`: nothing when storage is unavailable or the entry is absent, empty or unparsable. */
  function ReadDraft<V>(available: bool, storage: map<string, Entry<V>>, key: string): (r: Option<Record<V>>)
    ensures r.Some? <==> available && key in storage && storage[key].Saved?
    ensures r.Some? ==> r.value == storage[key].draft
  {
    if !available || key !in storage then None
    else match storage[key]
      case Saved(d) => Some(d)
      case Blank => None
      case Unparsable => None
  }

  /** `latestRef.current ?? readDraft(key) ?? {}` */
  function MergeBase<V>(latest: Option<Record<V>>, stored: Option<Record<V>>): (base: Record<V>)
    ensures latest.Some? ==> base == latest.value
    ensures latest.None? && stored.Some? ==> base == stored.value
    ensures latest.None? && stored.None? ==> base == map[]
  {
    match latest
    case Some(l) => l
    case None => stored.GetOr(map[])
  }

  /** `{ ...current, ...partial }`: keys of `partial` take its values, every other key is kept. */
  function Merge<V>(current: Record<V>, partial: Record<V>): (next: Record<V>)
    ensures next.Keys == current.Keys + partial.Keys
    ensures forall k :: k in partial ==> next[k] == partial[k]
    ensures forall k :: k in current && k !in partial ==> next[k] == current[k]
  {
    current + partial
  }

  class DraftStore<V> {
    /** `STORAGE_AVAILABLE` */
    const available: bool
    var key: string
    var storage: map<string, Entry<V>>
    var latest: Option<Record<V>>          // latestRef.current
    var pending: Option<PendingWrite<V>>   // the armed timeoutRef callback

    ghost predicate Valid()
      reads this
    {
      !available ==> pending.None? && latest.None?
    }

    /** Mounting the hook: no pending write, and the key effect reads the stored draft as merge base. */
    constructor (available: bool, key: string, storage: map<string, Entry<V>>)
      ensures Valid()
      ensures this.available == available && this.key == key && this.storage == storage
      ensures latest == ReadDraft(available, storage, key) && pending.None?
    {
      this.available := available;
      this.key := key;
      this.storage := storage;
      latest := ReadDraft(available, storage, key);
      pending := None;
    }

    /** `save(partial)`: merge over the base and replace any pending write by one for the merged value. */
    method Save(partial: Record<V>)
      requires Valid()
      modifies this
      ensures Valid()
      ensures key == old(key) && storage == old(storage)
      ensures !available ==> latest == old(latest) && pending == old(pending)
      ensures available ==>
                var next := Merge(MergeBase(old(latest), ReadDraft(available, storage, key)), partial);
                latest == Some(next) && pending == Some(PendingWrite(key, next))
    {
      if !available {
        return;
      }
      var current := MergeBase(latest, ReadDraft(available, storage, key));
      var next := Merge(current, partial);
      latest := Some(next);
      pending := Some(PendingWrite(key, next));
    }

    /** The debounce timer fires: the pending value is written under its key (unless the write fails). */
    method Fire(writeOk: bool)
      requires Valid()
      modifies this
      ensures Valid()
      ensures key == old(key) && latest == old(latest) && pending.None?
      ensures old(pending).None? ==> storage == old(storage)
      ensures old(pending).Some? && writeOk ==>
                storage == old(storage)[old(pending).value.key := Saved(old(pending).value.value)]
      ensures !writeOk ==> storage == old(storage)
    {
      if pending.None? {
        return;
      }
      var write := pending.value;
      if available && writeOk {
        storage := storage[write.key := Saved(write.value)];
      }
      pending := None;
    }

    /** `load()`: returns the stored draft and makes it the merge base. */
    method Load() returns (stored: Option<Record<V>>)
      requires Valid()
      modifies this
      ensures Valid()
      ensures stored == ReadDraft(available, storage, key)
      ensures latest == stored
      ensures key == old(key) && storage == old(storage) && pending == old(pending)
    {
      stored := ReadDraft(available, storage, key);
      latest := stored;
    }

    /** `clear()`: cancel the pending write, drop the merge base and remove the key (unless removal fails). */
    method Clear(removeOk: bool)
      requires Valid()
      modifies this
      ensures Valid()
      ensures pending.None? && latest.None? && key == old(key)
      ensures available && removeOk ==> storage == old(storage) - {key}
      ensures !(available && removeOk) ==> storage == old(storage)
    {
      pending := None;
      latest := None;
      if available && removeOk {
        storage := storage - {key};
      }
    }

    /** The key changes: the merge base becomes the draft stored under the new key. */
    method SetKey(newKey: string)
      requires Valid()
      modifies this
      ensures Valid()
      ensures key == newKey && latest == ReadDraft(available, storage, newKey)
      ensures storage == old(storage) && pending == old(pending)
    {
      key := newKey;
      latest := ReadDraft(available, storage, key);
    }
  }

  /** Two saves in a row, then the timer: only the second merged value reaches storage. */
  method SaveBurst<V>(storage: map<string, Entry<V>>, key: string, first: Record<V>, second: Record<V>)
    returns (written: map<string, Entry<V>>, again: map<string, Entry<V>>)
    ensures key in written
    ensures written[key] == Saved(Merge(Merge(MergeBase(None, ReadDraft(true, storage, key)), first), second))
    ensures forall k :: k != key ==> (k in written <==> k in storage) && (k in storage ==> written[k] == storage[k])
    ensures again == written
  {
    var store := new DraftStore(true, key, storage);
    store.Save(first);
    store.Save(second);
    store.Fire(true);
    written := store.storage;
    store.Fire(true);
    again := store.storage;
  }

  /** A save followed by `clear` before the timer fires is never persisted, and the key is gone. */
  method SaveThenClear<V>(storage: map<string, Entry<V>>, key: string, partial: Record<V>)
    returns (after: map<string, Entry<V>>)
    ensures key !in after
    ensures forall k :: k != key ==> (k in after <==> k in storage) && (k in storage ==> after[k] == storage[k])
  {
    var store := new DraftStore(true, key, storage);
    store.Save(partial);
    store.Clear(true);
    store.Fire(true);
    after := store.storage;
  }

  /** After `load`, the next save merges over exactly what was loaded. */
  method LoadThenSave<V>(storage: map<string, Entry<V>>, key: string, partial: Record<V>)
    returns (loaded: Option<Record<V>>, merged: Option<Record<V>>)
    ensures loaded == ReadDraft(true, storage, key)
    ensures merged == Some(Merge(loaded.GetOr(map[]), partial))
  {
    var store := new DraftStore(true, key, storage);
    loaded := store.Load();
    store.Save(partial);
    merged := store.latest;
  }

  /** Without storage, reads are empty and saving, firing and clearing change nothing. */
  method Unavailable<V>(storage: map<string, Entry<V>>, key: string, partial: Record<V>)
    returns (loaded: Option<Record<V>>, after: map<string, Entry<V>>)
    ensures loaded.None? && after == storage
  {
    var store := new DraftStore(false, key, storage);
    store.Save(partial);
    store.Fire(true);
    loaded := store.Load();
    store.Clear(true);
    after := store.storage;
  }

  /** A write that fails is swallowed: storage keeps its previous entry and nothing stays pending. */
  method FailedWrite<V>(storage: map<string, Entry<V>>, key: string, partial: Record<V>)
    returns (after: map<string, Entry<V>>, stillPending: bool)
    ensures after == storage && !stillPending
  {
    var store := new DraftStore(true, key, storage);
    store.Save(partial);
    store.Fire(false);
    after := store.storage;
    stillPending := store.pending.Some?;
  }
}
