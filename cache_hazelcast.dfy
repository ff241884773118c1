/** cache/hazelcast.go: a typed facade over the maps of a Hazelcast cluster.
    Values are stored as Hazelcast JSON values holding `json.Marshal(v)`,
    read back with `json.Unmarshal`, and map notifications are turned into
    calls on a `Listener` (cache/listener.go). */
module CacheHazelcast {
  import opened Wrappers

  type Bytes = seq<bv8>

  /** A value held by a Hazelcast map: a `serialization.JSON` value, or
      anything else another client stored there. */
  datatype Stored = Json(bytes: Bytes) | Other

  /** The maps of the cluster, by map name and then by key. */
  type Store = map<string, map<string, Stored>>

  /** `json.Marshal` and `json.Unmarshal` at type T. */
  datatype Codec<!T> = Codec(encode: T -> Result<Bytes, string>, decode: Bytes -> Result<T, string>)

  /** Decoding what was encoded gives the value back. */
  ghost predicate Lawful<T(!new)>(codec: Codec<T>) {
    forall v :: codec.encode(v).Ok? ==> codec.decode(codec.encode(v).value) == Ok(v)
  }

  /** What the cluster does with the next call: `GetMap` may fail, and so
      may the map operation that follows it. */
  datatype Remote = Remote(getMap: Option<string>, operation: Option<string>) {
    predicate Reachable() { getMap.None? && operation.None? }
  }

  /** The errors the facade returns; the first two and the decoding error
      are passed through from the client and from encoding/json. */
  datatype CacheError =
    | MapError(cause: string)
    | OperationError(cause: string)
    | EncodeError(cause: string)
    | DecodeError(cause: string)
    | NotHazelcastJson(key: string)
    | ListenerNotAdded(cause: string)
  {
    function Message(): string {
      match this
      case MapError(c) => c
      case OperationError(c) => c
      case EncodeError(c) => c
      case DecodeError(c) => c
      case NotHazelcastJson(k) => "value of cached object with key '" + k + "' is not a HazelcastJsonValue"
      case ListenerNotAdded(c) => "failed to add listener: " + c
    }
  }

  /** `GetMap` creates a map that does not exist yet, so a missing name reads as an empty map. */
  function Entries(store: Store, mapName: string): map<string, Stored> {
    if mapName in store then store[mapName] else map[]
  }

  function Lookup(store: Store, mapName: string, key: string): Option<Stored> {
    var m := Entries(store, mapName);
    if key in m then Some(m[key]) else None
  }

  /** `unmarshalHazelcastJson`: a missing value or one that is not a JSON
      value is refused with the key in the message; otherwise the bytes are decoded. */
  function UnmarshalHazelcastJson<T>(codec: Codec<T>, key: string, value: Option<Stored>): (r: Result<T, CacheError>)
    ensures r.Ok? <==> value.Some? && value.value.Json? && codec.decode(value.value.bytes).Ok?
    ensures r.Ok? ==> r.value == codec.decode(value.value.bytes).value
    ensures !(value.Some? && value.value.Json?) ==> r == Err(NotHazelcastJson(key))
  {
    match value
    case Some(Json(b)) =>
      (match codec.decode(b)
       case Ok(v) => Ok(v)
       case Err(e) => Err(DecodeError(e)))
    case _ => Err(NotHazelcastJson(key))
  }

  /** The error of a call and the maps after it. */
  datatype Outcome = Outcome(err: Option<CacheError>, store: Store)

  /** `Put`: stop at the first failure of GetMap, encoding and Set; only a
      successful Set stores `Json(encode(value))`. */
  function PutStore<T>(store: Store, codec: Codec<T>, mapName: string, key: string, value: T, remote: Remote): (r: Outcome)
    ensures r.err.None? <==> remote.Reachable() && codec.encode(value).Ok?
    ensures r.err.Some? ==> r.store == store
    ensures r.err.None? ==> Lookup(r.store, mapName, key) == Some(Json(codec.encode(value).value))
  {
    if remote.getMap.Some? then Outcome(Some(MapError(remote.getMap.value)), store)
    else if codec.encode(value).Err? then Outcome(Some(EncodeError(codec.encode(value).error)), store)
    else if remote.operation.Some? then Outcome(Some(OperationError(remote.operation.value)), store)
    else Outcome(None, store[mapName := Entries(store, mapName)[key := Json(codec.encode(value).value)]])
  }

  /** `Get`: nil for an absent key, otherwise the decoded value or the error. */
  function GetResult<T>(store: Store, codec: Codec<T>, mapName: string, key: string, remote: Remote): (r: Result<Option<T>, CacheError>)
    ensures !remote.Reachable() ==> r.Err?
    ensures r == Ok(None) <==> remote.Reachable() && Lookup(store, mapName, key).None?
    ensures r.Ok? && r.value.Some? ==>
      Lookup(store, mapName, key).Some? && Lookup(store, mapName, key).value.Json?
      && codec.decode(Lookup(store, mapName, key).value.bytes) == Ok(r.value.value)
    ensures (remote.Reachable() && Lookup(store, mapName, key).Some? && Lookup(store, mapName, key).value.Json?
      && codec.decode(Lookup(store, mapName, key).value.bytes).Ok?) ==>
      r == Ok(Some(codec.decode(Lookup(store, mapName, key).value.bytes).value))
  {
    if remote.getMap.Some? then Err(MapError(remote.getMap.value))
    else if remote.operation.Some? then Err(OperationError(remote.operation.value))
    else match Lookup(store, mapName, key)
      case None => Ok(None)
      case Some(s) =>
        (match UnmarshalHazelcastJson(codec, key, Some(s))
         case Ok(v) => Ok(Some(v))
         case Err(e) => Err(e))
  }

  /** `Delete`: removing an absent key is no error. */
  function DeleteStore(store: Store, mapName: string, key: string, remote: Remote): (r: Outcome)
    ensures r.err.None? <==> remote.Reachable()
    ensures r.err.Some? ==> r.store == store
    ensures r.err.None? ==> Lookup(r.store, mapName, key).None?
  {
    if remote.getMap.Some? then Outcome(Some(MapError(remote.getMap.value)), store)
    else if remote.operation.Some? then Outcome(Some(OperationError(remote.operation.value)), store)
    else Outcome(None, store[mapName := Entries(store, mapName) - {key}])
  }

  /** Every value stored in the map is a JSON value that decodes. */
  predicate WellFormed<T>(codec: Codec<T>, m: map<string, Stored>) {
    forall k :: k in m ==> m[k].Json? && codec.decode(m[k].bytes).Ok?
  }

  // ---------------------------------------------------------------- Put, Get, Delete

  /** A failed `Put` changes nothing and reports the first failure, in the
      order GetMap, encoding, Set. */
  lemma PutFailure<T>(store: Store, codec: Codec<T>, mapName: string, key: string, value: T, remote: Remote)
    requires remote.getMap.Some? || codec.encode(value).Err? || remote.operation.Some?
    ensures PutStore(store, codec, mapName, key, value, remote).store == store
    ensures remote.getMap.Some? ==> PutStore(store, codec, mapName, key, value, remote).err == Some(MapError(remote.getMap.value))
    ensures remote.getMap.None? && codec.encode(value).Err? ==>
      PutStore(store, codec, mapName, key, value, remote).err == Some(EncodeError(codec.encode(value).error))
    ensures PutStore(store, codec, mapName, key, value, remote).err.Some?
  {
  }

  /** A successful `Put` stores the encoding under the key and touches no
      other key of any map. */
  lemma PutFrame<T>(store: Store, codec: Codec<T>, mapName: string, key: string, value: T, remote: Remote, m: string, k: string)
    requires remote.Reachable() && codec.encode(value).Ok?
    ensures PutStore(store, codec, mapName, key, value, remote).err.None?
    ensures Lookup(PutStore(store, codec, mapName, key, value, remote).store, mapName, key) == Some(Json(codec.encode(value).value))
    ensures (m, k) != (mapName, key) ==>
      Lookup(PutStore(store, codec, mapName, key, value, remote).store, m, k) == Lookup(store, m, k)
  {
  }

  /** With a lawful codec, `Get` after a successful `Put` returns the value put. */
  lemma GetAfterPut<T(!new)>(store: Store, codec: Codec<T>, mapName: string, key: string, value: T, remote: Remote, later: Remote)
    requires Lawful(codec)
    requires remote.Reachable() && later.Reachable() && codec.encode(value).Ok?
    ensures GetResult(PutStore(store, codec, mapName, key, value, remote).store, codec, mapName, key, later) == Ok(Some(value))
  {
    assert codec.decode(codec.encode(value).value) == Ok(value);
  }

  /** An absent key reads as nil with no error; a value that is not JSON, or
      whose bytes do not decode, is an error, never a value; a JSON value
      that decodes is returned decoded. */
  lemma GetCases<T>(store: Store, codec: Codec<T>, mapName: string, key: string, remote: Remote)
    requires remote.Reachable()
    ensures Lookup(store, mapName, key).None? ==> GetResult(store, codec, mapName, key, remote) == Ok(None)
    ensures Lookup(store, mapName, key) == Some(Other) ==>
      GetResult(store, codec, mapName, key, remote) == Err(NotHazelcastJson(key))
    ensures (Lookup(store, mapName, key).Some? && Lookup(store, mapName, key).value.Json?
      && codec.decode(Lookup(store, mapName, key).value.bytes).Err?) ==>
      GetResult(store, codec, mapName, key, remote) == Err(DecodeError(codec.decode(Lookup(store, mapName, key).value.bytes).error))
    ensures (Lookup(store, mapName, key).Some? && Lookup(store, mapName, key).value.Json?
      && codec.decode(Lookup(store, mapName, key).value.bytes).Ok?) ==>
      GetResult(store, codec, mapName, key, remote) == Ok(Some(codec.decode(Lookup(store, mapName, key).value.bytes).value))
  {
  }

  /** When GetMap or the map operation fails, `Get` returns that error and no value. */
  lemma GetRemoteFailure<T>(store: Store, codec: Codec<T>, mapName: string, key: string, remote: Remote)
    requires !remote.Reachable()
    ensures GetResult(store, codec, mapName, key, remote).Err?
    ensures remote.getMap.Some? ==> GetResult(store, codec, mapName, key, remote) == Err(MapError(remote.getMap.value))
  {
  }

  /** After a successful `Delete` the key reads as nil, a second `Delete`
      changes nothing, and every other key is as it was. */
  lemma DeleteThenGet<T>(store: Store, codec: Codec<T>, mapName: string, key: string, remote: Remote, m: string, k: string)
    requires remote.Reachable()
    ensures DeleteStore(store, mapName, key, remote).err.None?
    ensures GetResult(DeleteStore(store, mapName, key, remote).store, codec, mapName, key, remote) == Ok(None)
    ensures DeleteStore(DeleteStore(store, mapName, key, remote).store, mapName, key, remote)
         == DeleteStore(store, mapName, key, remote)
    ensures (m, k) != (mapName, key) ==>
      Lookup(DeleteStore(store, mapName, key, remote).store, m, k) == Lookup(store, m, k)
  {
    var once := DeleteStore(store, mapName, key, remote).store;
    assert Entries(once, mapName) - {key} == Entries(once, mapName);
  }

  /** A failed `Delete` changes nothing. */
  lemma DeleteFailure(store: Store, mapName: string, key: string, remote: Remote)
    requires !remote.Reachable()
    ensures DeleteStore(store, mapName, key, remote).store == store
    ensures DeleteStore(store, mapName, key, remote).err.Some?
  {
  }

  /** With a lawful codec, puts keep every map well formed. */
  lemma PutKeepsWellFormed<T(!new)>(store: Store, codec: Codec<T>, mapName: string, key: string, value: T, remote: Remote, m: string)
    requires Lawful(codec) && WellFormed(codec, Entries(store, m))
    ensures WellFormed(codec, Entries(PutStore(store, codec, mapName, key, value, remote).store, m))
  {
    if remote.Reachable() && codec.encode(value).Ok? {
      assert codec.decode(codec.encode(value).value) == Ok(value);
    }
  }

  // ---------------------------------------------------------------- GetQuery

  datatype Entry = Entry(key: string, value: Stored)

  /** The keys that occur in a list of entries. */
  function KeysOf(entries: seq<Entry>): set<string> {
    set i | 0 <= i < |entries| :: entries[i].key
  }

  lemma KeysOfAppend(entries: seq<Entry>, e: Entry)
    ensures KeysOf(entries + [e]) == KeysOf(entries) + {e.key}
  {
    var xs := entries + [e];
    assert forall i :: 0 <= i < |entries| ==> xs[i] == entries[i];
    assert xs[|entries|] == e;
  }

  /** The entries are those of m that satisfy the query, each key once, in
      some order the cluster chooses. */
  predicate Enumerates(entries: seq<Entry>, m: map<string, Stored>, query: Entry -> bool) {
    (forall i, j :: 0 <= i < j < |entries| ==> entries[i].key != entries[j].key)
    && (forall i :: 0 <= i < |entries| ==> entries[i].key in m && m[entries[i].key] == entries[i].value && query(entries[i]))
    && KeysOf(entries) == set k | k in m && query(Entry(k, m[k]))
  }

  /** Part way through an enumeration: the entries so far are those of m
      that satisfy the query among the keys no longer remaining; with no
      key remaining, this is `Enumerates`. */
  predicate Enumerating(entries: seq<Entry>, m: map<string, Stored>, query: Entry -> bool, remaining: set<string>) {
    && remaining <= m.Keys
    && (forall i, j :: 0 <= i < j < |entries| ==> entries[i].key != entries[j].key)
    && (forall i :: 0 <= i < |entries| ==> entries[i].key in m && m[entries[i].key] == entries[i].value && query(entries[i]))
    && (forall i :: 0 <= i < |entries| ==> entries[i].key !in remaining)
    && KeysOf(entries) == set k | k in m && k !in remaining && query(Entry(k, m[k]))
  }

  /** Taking one remaining key, and keeping its entry if it matches,
      continues the enumeration. */
  lemma EnumerateStep(entries: seq<Entry>, m: map<string, Stored>, query: Entry -> bool, remaining: set<string>, k: string)
    requires Enumerating(entries, m, query, remaining) && k in remaining
    ensures query(Entry(k, m[k])) ==> Enumerating(entries + [Entry(k, m[k])], m, query, remaining - {k})
    ensures !query(Entry(k, m[k])) ==> Enumerating(entries, m, query, remaining - {k})
  {
    var e := Entry(k, m[k]);
    KeysOfAppend(entries, e);
    var xs := entries + [e];
    if query(e) {
      assert forall i :: 0 <= i < |entries| ==> xs[i] == entries[i];
    }
  }

  /** The loop of `GetQuery`: decode entries in order and stop at the first
      one that is not a JSON value or does not decode. */
  function DecodeAll<T>(codec: Codec<T>, entries: seq<Entry>): (r: Result<seq<T>, CacheError>)
    ensures r.Ok? ==> |r.value| == |entries|
    ensures r.Ok? ==> forall i :: 0 <= i < |entries| ==>
      UnmarshalHazelcastJson(codec, entries[i].key, Some(entries[i].value)) == Ok(r.value[i])
  {
    if entries == [] then Ok([])
    else
      var last := entries[|entries| - 1];
      match DecodeAll(codec, entries[..|entries| - 1])
      case Err(e) => Err(e)
      case Ok(vs) =>
        match UnmarshalHazelcastJson(codec, last.key, Some(last.value))
        case Err(e) => Err(e)
        case Ok(v) => Ok(vs + [v])
  }

  /** Decoding fails exactly at the first entry that does not decode, with that entry's error. */
  lemma {:induction false} DecodeAllFirstFailure<T>(codec: Codec<T>, entries: seq<Entry>, i: nat)
    requires i < |entries|
    requires forall j :: 0 <= j < i ==> UnmarshalHazelcastJson(codec, entries[j].key, Some(entries[j].value)).Ok?
    requires UnmarshalHazelcastJson(codec, entries[i].key, Some(entries[i].value)).Err?
    ensures DecodeAll(codec, entries) == Err(UnmarshalHazelcastJson(codec, entries[i].key, Some(entries[i].value)).error)
    decreases |entries|
  {
    var init := entries[..|entries| - 1];
    if i < |entries| - 1 {
      DecodeAllFirstFailure(codec, init, i);
    } else {
      DecodeAllSucceeds(codec, init);
    }
  }

  /** Decoding succeeds when every entry decodes. */
  lemma {:induction false} DecodeAllSucceeds<T>(codec: Codec<T>, entries: seq<Entry>)
    requires forall j :: 0 <= j < |entries| ==> UnmarshalHazelcastJson(codec, entries[j].key, Some(entries[j].value)).Ok?
    ensures DecodeAll(codec, entries).Ok?
    decreases |entries|
  {
    if entries != [] {
      DecodeAllSucceeds(codec, entries[..|entries| - 1]);
    }
  }

  /** On a well-formed map a query returns one decoded value per matching
      entry, in the cluster's order. */
  lemma QueryOfWellFormed<T>(codec: Codec<T>, entries: seq<Entry>, m: map<string, Stored>, query: Entry -> bool)
    requires WellFormed(codec, m) && Enumerates(entries, m, query)
    ensures DecodeAll(codec, entries).Ok?
    ensures |DecodeAll(codec, entries).value| == |entries|
    ensures forall i :: 0 <= i < |entries| ==>
      Ok(DecodeAll(codec, entries).value[i]) == codec.decode(m[entries[i].key].bytes)
  {
    DecodeAllSucceeds(codec, entries);
  }

  // ---------------------------------------------------------------- listener dispatch

  datatype EventKind = Added | Updated | Removed

  /** An `EntryNotified` event: the key, the new value and the old value
      (absent where the cluster sends none). */
  datatype Notification = Notification(kind: EventKind, key: string, value: Option<Stored>, oldValue: Option<Stored>)

  /** The one listener call a notification leads to. */
  datatype Callback<T> =
    | OnAdd(event: Notification, obj: T)
    | OnUpdate(event: Notification, obj: T, oldObj: T)
    | OnDelete(event: Notification)
    | OnError(event: Notification, err: CacheError)

  /** The three closures `AddListener` installs. A removal always calls
      `OnDelete`; an addition calls `OnAdd` with the decoded value or
      `OnError`; an update decodes the new value first, then the old, and
      calls `OnUpdate` only when both decode. */
  function Dispatch<T>(codec: Codec<T>, n: Notification): (c: Callback<T>)
    ensures c.event == n
    ensures n.kind == Removed <==> c.OnDelete?
    ensures c.OnAdd? <==> n.kind == Added && UnmarshalHazelcastJson(codec, n.key, n.value).Ok?
    ensures c.OnAdd? ==> Ok(c.obj) == UnmarshalHazelcastJson(codec, n.key, n.value)
    ensures c.OnUpdate? <==> (n.kind == Updated && UnmarshalHazelcastJson(codec, n.key, n.value).Ok?
      && UnmarshalHazelcastJson(codec, n.key, n.oldValue).Ok?)
    ensures c.OnUpdate? ==> (Ok(c.obj) == UnmarshalHazelcastJson(codec, n.key, n.value)
      && Ok(c.oldObj) == UnmarshalHazelcastJson(codec, n.key, n.oldValue))
    ensures c.OnError? && UnmarshalHazelcastJson(codec, n.key, n.value).Err? ==>
      c.err == UnmarshalHazelcastJson(codec, n.key, n.value).error
    ensures c.OnError? && UnmarshalHazelcastJson(codec, n.key, n.value).Ok? ==>
      n.kind == Updated && c.err == UnmarshalHazelcastJson(codec, n.key, n.oldValue).error
  {
    match n.kind
    case Added =>
      (match UnmarshalHazelcastJson(codec, n.key, n.value)
       case Err(e) => OnError(n, e)
       case Ok(obj) => OnAdd(n, obj))
    case Updated =>
      (match UnmarshalHazelcastJson(codec, n.key, n.value)
       case Err(e) => OnError(n, e)
       case Ok(obj) =>
         match UnmarshalHazelcastJson(codec, n.key, n.oldValue)
         case Err(e) => OnError(n, e)
         case Ok(oldObj) => OnUpdate(n, obj, oldObj))
    case Removed => OnDelete(n)
  }

  /** The calls a listener sees for a run of notifications, one per notification. */
  function DispatchAll<T>(codec: Codec<T>, ns: seq<Notification>): (cs: seq<Callback<T>>)
    ensures |cs| == |ns|
    ensures forall i :: 0 <= i < |ns| ==> cs[i] == Dispatch(codec, ns[i])
  {
    if ns == [] then [] else DispatchAll(codec, ns[..|ns| - 1]) + [Dispatch(codec, ns[|ns| - 1])]
  }

  /** Dispatching two runs one after the other is dispatching their concatenation. */
  lemma DispatchAllAppend<T>(codec: Codec<T>, xs: seq<Notification>, ys: seq<Notification>)
    ensures DispatchAll(codec, xs + ys) == DispatchAll(codec, xs) + DispatchAll(codec, ys)
  {
  }

  /** The notification the cluster sends for a successful put of `bytes`:
      an addition for a new key, an update carrying the old value otherwise. */
  function PutNotification(store: Store, mapName: string, key: string, bytes: Bytes): Notification {
    match Lookup(store, mapName, key)
    case None => Notification(Added, key, Some(Json(bytes)), None)
    case Some(previous) => Notification(Updated, key, Some(Json(bytes)), Some(previous))
  }

  /** The notification the cluster sends for the removal of a present key. */
  function DeleteNotification(store: Store, mapName: string, key: string): Notification
    requires Lookup(store, mapName, key).Some?
  {
    Notification(Removed, key, None, Lookup(store, mapName, key))
  }

  /** With a lawful codec and a well-formed map, the notification of a put
      reaches `OnAdd` or `OnUpdate` with the value put, never `OnError`. */
  lemma WellFormedPutsNeverError<T(!new)>(store: Store, codec: Codec<T>, mapName: string, key: string, value: T)
    requires Lawful(codec) && WellFormed(codec, Entries(store, mapName)) && codec.encode(value).Ok?
    ensures !Dispatch(codec, PutNotification(store, mapName, key, codec.encode(value).value)).OnError?
    ensures Lookup(store, mapName, key).None? ==>
      Dispatch(codec, PutNotification(store, mapName, key, codec.encode(value).value)).OnAdd?
    ensures Lookup(store, mapName, key).Some? ==>
      Dispatch(codec, PutNotification(store, mapName, key, codec.encode(value).value)).OnUpdate?
    ensures Dispatch(codec, PutNotification(store, mapName, key, codec.encode(value).value)).obj == value
  {
    assert codec.decode(codec.encode(value).value) == Ok(value);
  }

  /** A removal reaches `OnDelete` whatever the old value was. */
  lemma DeleteDispatchesOnDelete<T>(store: Store, codec: Codec<T>, mapName: string, key: string)
    requires Lookup(store, mapName, key).Some?
    ensures Dispatch(codec, DeleteNotification(store, mapName, key)) == OnDelete(DeleteNotification(store, mapName, key))
  {
  }

  // ---------------------------------------------------------------- the cache object

  class HazelcastCache<T> {
    const codec: Codec<T>
    /** The maps of the cluster the client is connected to. */
    var maps: Store
    /** The names of the maps a listener was added to, in order. */
    var listening: seq<string>

    constructor (codec: Codec<T>, maps: Store)
      ensures this.codec == codec && this.maps == maps && listening == []
    {
      this.codec := codec;
      this.maps := maps;
      listening := [];
    }

    method Put(mapName: string, key: string, value: T, remote: Remote) returns (err: Option<CacheError>)
      modifies this`maps
      ensures Outcome(err, maps) == PutStore(old(maps), codec, mapName, key, value, remote)
    {
      if remote.getMap.Some? {
        return Some(MapError(remote.getMap.value));
      }
      var bytes := codec.encode(value);
      if bytes.Err? {
        return Some(EncodeError(bytes.error));
      }
      if remote.operation.Some? {
        return Some(OperationError(remote.operation.value));
      }
      maps := maps[mapName := Entries(maps, mapName)[key := Json(bytes.value)]];
      err := None;
    }

    method Get(mapName: string, key: string, remote: Remote) returns (r: Result<Option<T>, CacheError>)
      ensures r == GetResult(maps, codec, mapName, key, remote)
    {
      if remote.getMap.Some? {
        return Err(MapError(remote.getMap.value));
      }
      if remote.operation.Some? {
        return Err(OperationError(remote.operation.value));
      }
      var value := Lookup(maps, mapName, key);
      if value.None? {
        return Ok(None);
      }
      var obj := UnmarshalHazelcastJson(codec, key, value);
      if obj.Err? {
        return Err(obj.error);
      }
      r := Ok(Some(obj.value));
    }

    method Delete(mapName: string, key: string, remote: Remote) returns (err: Option<CacheError>)
      modifies this`maps
      ensures Outcome(err, maps) == DeleteStore(old(maps), mapName, key, remote)
    {
      if remote.getMap.Some? {
        return Some(MapError(remote.getMap.value));
      }
      if remote.operation.Some? {
        return Some(OperationError(remote.operation.value));
      }
      maps := maps[mapName := Entries(maps, mapName) - {key}];
      err := None;
    }

    /** `GetEntrySetWithPredicate` on the cluster: the matching entries of
        the map, in an order the cluster picks. */
    method EntrySetWithPredicate(mapName: string, query: Entry -> bool) returns (entries: seq<Entry>)
      ensures Enumerates(entries, Entries(maps, mapName), query)
    {
      var m := Entries(maps, mapName);
      var remaining := m.Keys;
      entries := [];
      while remaining != {}
        invariant Enumerating(entries, m, query, remaining)
        decreases |remaining|
      {
        var k :| k in remaining;
        EnumerateStep(entries, m, query, remaining, k);
        if query(Entry(k, m[k])) {
          entries := entries + [Entry(k, m[k])];
        }
        remaining := remaining - {k};
      }
    }

    /** `GetQuery`: the decoded values of the matching entries, in entry
        order, or the first failure with no partial result. */
    method GetQuery(mapName: string, query: Entry -> bool, remote: Remote) returns (r: Result<seq<T>, CacheError>, ghost entries: seq<Entry>)
      ensures remote.getMap.Some? ==> r == Err(MapError(remote.getMap.value))
      ensures remote.getMap.None? && remote.operation.Some? ==> r == Err(OperationError(remote.operation.value))
      ensures remote.Reachable() ==> Enumerates(entries, Entries(maps, mapName), query) && r == DecodeAll(codec, entries)
    {
      entries := [];
      if remote.getMap.Some? {
        return Err(MapError(remote.getMap.value)), entries;
      }
      if remote.operation.Some? {
        return Err(OperationError(remote.operation.value)), entries;
      }
      var found := EntrySetWithPredicate(mapName, query);
      entries := found;
      var values: seq<T> := [];
      var i := 0;
      while i < |found|
        invariant 0 <= i <= |found|
        invariant DecodeAll(codec, found[..i]) == Ok(values)
      {
        assert found[..i + 1][..i] == found[..i];
        var obj := UnmarshalHazelcastJson(codec, found[i].key, Some(found[i].value));
        if obj.Err? {
          DecodeAllFirstFailure(codec, found, i);
          return Err(obj.error), entries;
        }
        values := values + [obj.value];
        i := i + 1;
      }
      assert found[..i] == found;
      r := Ok(values);
    }

    /** `AddListener`: GetMap's error is returned as is, a failure to add
        the listener is wrapped; on success the map is listened to. */
    method AddListener(mapName: string, remote: Remote) returns (err: Option<CacheError>)
      modifies this`listening
      ensures remote.getMap.Some? ==> err == Some(MapError(remote.getMap.value)) && listening == old(listening)
      ensures remote.getMap.None? && remote.operation.Some? ==>
        err == Some(ListenerNotAdded(remote.operation.value)) && listening == old(listening)
      ensures remote.Reachable() ==> err.None? && listening == old(listening) + [mapName]
    {
      if remote.getMap.Some? {
        return Some(MapError(remote.getMap.value));
      }
      if remote.operation.Some? {
        return Some(ListenerNotAdded(remote.operation.value));
      }
      listening := listening + [mapName];
      err := None;
    }
  }
}
