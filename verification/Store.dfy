// The Redis server as the service sees it: five key families, each key with a value and,
// once EXPIRE has run, a deadline.  A key is present strictly before its deadline.
module RedisStore {
  import opened Values

  datatype Entry<+T> = Entry(value: T, deadline: Option<int>)

  type Table<T> = map<string, Entry<T>>

  /** The fields of a session hash, named after the strings the service uses for them. */
  datatype HashField =
    | SessionKeyField | UserIdField | ChannelField | ConversationIdField
    | StateField | TaskQueueField | SubagentField | ProfileField
    | ExpiresAtField | CreatedAtField | UpdatedAtField | TriggerIdField
    | StartTypeField | ActionOwnerField | CushionField | AttributesField
    | LastEventField | CloseReasonField | EndedAtField | SummaryField
    | CusnoField | TurnIdsField | AgentsField | ReferenceField

  type Hash = map<HashField, Text>

  /** Fields that hold a codec's output and are read back in decoded form; the others are stored as given. */
  predicate IsDecoded(f: HashField) {
    f.ExpiresAtField? || f.CusnoField? || f.TurnIdsField? || f.AgentsField? || f.ReferenceField?
  }

  predicate PlainOnly(h: Hash) {
    forall f :: f in h ==> !IsDecoded(f)
  }

  datatype Store = Store(
    now: int,
    sessions: Table<Hash>,
    turns: Table<seq<Text>>,
    jtis: Table<string>,
    realtime: Table<Text>,
    batch: Table<Text>)

  /** HSET: merges into an existing hash and keeps its deadline; a new hash has none. */
  function HSet(t: Table<Hash>, k: string, fields: Hash): Table<Hash> {
    if k in t then t[k := t[k].(value := t[k].value + fields)] else t[k := Entry(fields, None)]
  }

  /** RPUSH: appends and keeps the deadline; a new list has none. */
  function RPush(t: Table<seq<Text>>, k: string, v: Text): Table<seq<Text>> {
    if k in t then t[k := t[k].(value := t[k].value + [v])] else t[k := Entry([v], None)]
  }

  /** SET without options: replaces the value and drops the deadline. */
  function Set<T>(t: Table<T>, k: string, v: T): Table<T> {
    t[k := Entry(v, None)]
  }

  /** SETEX */
  function SetEx<T>(t: Table<T>, k: string, v: T, deadline: int): Table<T> {
    t[k := Entry(v, Some(deadline))]
  }

  /** EXPIRE: no effect on an absent key. */
  function ExpireAt<T>(t: Table<T>, k: string, deadline: int): Table<T> {
    if k in t then t[k := t[k].(deadline := Some(deadline))] else t
  }

  /** DEL */
  function Del<T>(t: Table<T>, k: string): Table<T> {
    map x | x in t && x != k :: t[x]
  }

  /** What is left of a family once the clock shows `now`. */
  function Sweep<T>(t: Table<T>, now: int): Table<T> {
    map k | k in t && (t[k].deadline.Some? ==> now < t[k].deadline.value) :: t[k]
  }

  /** The clock moves on and every key whose deadline has come disappears. */
  function Elapse(db: Store, d: nat): Store {
    var now := db.now + d;
    Store(now, Sweep(db.sessions, now), Sweep(db.turns, now), Sweep(db.jtis, now),
          Sweep(db.realtime, now), Sweep(db.batch, now))
  }

  function EmptyStore(now: int): Store {
    Store(now, map[], map[], map[], map[], map[])
  }
}
