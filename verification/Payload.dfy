// encrypt_payload: recursive encryption of a log payload, which is a graph of Python objects that
// may be shared and cyclic.
module Payload {
  import opened Values

  type Ref = nat

  /** An object: a dict, a list, a pydantic model or an instance with attributes, a leaf, or None. */
  datatype Node =
    | Dict(entries: map<string, Ref>)
    | List(items: seq<Ref>)
    | Model(fields: map<string, Ref>)
    | Instance(attributes: map<string, Ref>)
    | Leaf(value: Json)
    | NoneNode

  type Graph = map<Ref, Node>

  function Children(n: Node): set<Ref> {
    match n
    case Dict(entries) => entries.Values
    case List(items) => set r | r in items
    case Model(fields) => fields.Values
    case Instance(attributes) => attributes.Values
    case _ => {}
  }

  /** Every object mentioned is in the graph. */
  predicate Closed(g: Graph) {
    forall r, x :: r in g && x in Children(g[r]) ==> x in g
  }

  /** What comes out.  Copied is the original object, left as it was. */
  datatype Out =
    | OutDict(outs: map<string, Out>)
    | OutList(list: seq<Out>)
    | Cipher(text: string)
    | Absent
    | Marker
    | Copied(original: Ref)

  datatype Result = Done(out: Out) | Error

  const MAX_DEPTH := 20

  const ENCRYPT_EXCEPTIONS := {"globId", "resultCode", "requestId", "trxCd", "agent", "session_id", "turn_id"}

  /** to_dict: models and instances count as dictionaries of their fields. */
  function ToDict(n: Node): (r: Node)
    ensures Children(r) == Children(n) && !r.Model? && !r.Instance?
  {
    match n
    case Model(fields) => Dict(fields)
    case Instance(attributes) => Dict(attributes)
    case _ => n
  }

  /** Encrypting one leaf; None is an exception. */
  type LeafCipher = Json -> Option<string>

  predicate AllDone<K>(rs: map<K, Result>) {
    forall k :: k in rs ==> rs[k].Done?
  }

  predicate AllDoneIn(rs: seq<Result>) {
    forall i :: 0 <= i < |rs| ==> rs[i].Done?
  }

  /** encrypt_recursive.  The depth bound makes it total on every graph, cyclic ones included. */
  function Encrypt(c: LeafCipher, g: Graph, r: Ref, depth: nat): Result
    requires Closed(g) && r in g
    decreases MAX_DEPTH + 1 - depth
  {
    if depth > MAX_DEPTH then Done(Marker) else
    match ToDict(g[r])
    case Dict(entries) =>
      var rs := map k | k in entries ::
        if k in ENCRYPT_EXCEPTIONS then Done(Copied(entries[k]))
        else (assert entries[k] in Children(g[r]); Encrypt(c, g, entries[k], depth + 1));
      if AllDone(rs) then Done(OutDict(map k | k in rs :: rs[k].out)) else Error
    case List(items) =>
      var rs := seq(|items|,
          i requires 0 <= i < |items| => assert items[i] in Children(g[r]); Encrypt(c, g, items[i], depth + 1));
      if AllDoneIn(rs) then Done(OutList(seq(|rs|, i requires 0 <= i < |rs| => rs[i].out))) else Error
    case Leaf(v) => if c(v).Some? then Done(Cipher(c(v).value)) else Error
    case _ => Done(Absent)
  }

  datatype Reply = Encrypted(out: Out) | ErrorText

  /** encrypt_payload: no key or any exception turns the whole payload into an error text. */
  function EncryptPayload(key: Option<LeafCipher>, g: Graph, r: Ref): Reply
    requires Closed(g) && r in g
  {
    if key.None? then ErrorText else
    match Encrypt(key.value, g, r, 0)
    case Done(out) => Encrypted(out)
    case Error => ErrorText
  }

  // ---------- positions ----------

  datatype Move = Key(k: string) | Index(i: nat)

  /** The moves go through no exempt key. */
  predicate Covered(p: seq<Move>) {
    forall i :: 0 <= i < |p| && p[i].Key? ==> p[i].k !in ENCRYPT_EXCEPTIONS
  }

  /** The object one move away. */
  function Child(n: Node, m: Move): (r: Option<Ref>)
    ensures r.Some? ==> r.value in Children(n)
  {
    match (ToDict(n), m)
    case (Dict(entries), Key(k)) => Get(entries, k)
    case (List(items), Index(i)) => if i < |items| then Some(items[i]) else None
    case _ => None
  }

  function Walk(g: Graph, r: Ref, p: seq<Move>): (x: Option<Ref>)
    requires Closed(g) && r in g
    ensures x.Some? ==> x.value in g
    decreases |p|
  {
    if p == [] then Some(r)
    else match Child(g[r], p[0])
      case None => None
      case Some(x) => Walk(g, x, p[1..])
  }

  function OutChild(o: Out, m: Move): Option<Out> {
    match (o, m)
    case (OutDict(outs), Key(k)) => Get(outs, k)
    case (OutList(list), Index(i)) => if i < |list| then Some(list[i]) else None
    case _ => None
  }

  function OutAt(o: Out, p: seq<Move>): Option<Out> {
    if p == [] then Some(o)
    else match OutChild(o, p[0])
      case None => None
      case Some(x) => OutAt(x, p[1..])
  }

  /** What stands for object r at the given depth: same keys, same length, exempt values as they were,
      ciphertexts and None for leaves, the marker beyond the bound. */
  predicate StandsFor(c: LeafCipher, g: Graph, r: Ref, depth: nat, o: Out)
    requires r in g
  {
    if depth > MAX_DEPTH then o == Marker else
    match ToDict(g[r])
    case Dict(entries) =>
      && o.OutDict? && o.outs.Keys == entries.Keys
      && forall k :: k in entries && k in ENCRYPT_EXCEPTIONS ==> o.outs[k] == Copied(entries[k])
    case List(items) => o.OutList? && |o.list| == |items|
    case Leaf(v) => c(v).Some? && o == Cipher(c(v).value)
    case _ => o == Absent
  }

  lemma EncryptTop(c: LeafCipher, g: Graph, r: Ref, depth: nat, out: Out)
    requires Closed(g) && r in g && Encrypt(c, g, r, depth) == Done(out)
    ensures StandsFor(c, g, r, depth, out)
  {
  }

  lemma EncryptChild(c: LeafCipher, g: Graph, r: Ref, depth: nat, out: Out, m: Move)
    requires Closed(g) && r in g && depth <= MAX_DEPTH && Encrypt(c, g, r, depth) == Done(out)
        && (m.Key? ==> m.k !in ENCRYPT_EXCEPTIONS)
    ensures var x, o := Child(g[r], m), OutChild(out, m);
      && (x.Some? <==> o.Some?)
      && (x.Some? ==> Encrypt(c, g, x.value, depth + 1) == Done(o.value))
  {
  }

  /** At position p input and output correspond. */
  predicate Corresponds(c: LeafCipher, g: Graph, r: Ref, depth: nat, out: Out, p: seq<Move>)
    requires Closed(g) && r in g
  {
    var x, o := Walk(g, r, p), OutAt(out, p);
    (x.Some? <==> o.Some?) && (x.Some? ==> StandsFor(c, g, x.value, depth + |p|, o.value))
  }

  lemma CorrespondsStep(c: LeafCipher, g: Graph, r: Ref, depth: nat, out: Out, p: seq<Move>)
    requires Closed(g) && r in g && p != []
    requires Child(g[r], p[0]).Some? <==> OutChild(out, p[0]).Some?
    requires Child(g[r], p[0]).Some?
        ==> Corresponds(c, g, Child(g[r], p[0]).value, depth + 1, OutChild(out, p[0]).value, p[1..])
    ensures Corresponds(c, g, r, depth, out, p)
  {
  }

  /** Position by position, down to one level beyond the bound, the output stands for the input. */
  lemma {:induction false} PositionsKept(c: LeafCipher, g: Graph, r: Ref, depth: nat, out: Out, p: seq<Move>)
    requires Closed(g) && r in g && Encrypt(c, g, r, depth) == Done(out) && Covered(p) && depth + |p| <= MAX_DEPTH + 1
    ensures Corresponds(c, g, r, depth, out, p)
    decreases |p|
  {
    if p == [] {
      EncryptTop(c, g, r, depth, out);
    } else {
      EncryptChild(c, g, r, depth, out, p[0]);
      var x, o := Child(g[r], p[0]), OutChild(out, p[0]);
      if x.Some? { PositionsKept(c, g, x.value, depth + 1, o.value, p[1..]); }
      CorrespondsStep(c, g, r, depth, out, p);
    }
  }

  /** No leaf of the input survives outside the exempt keys. */
  predicate Sealed(o: Out) {
    match o
    case OutDict(outs) => forall k :: k in outs ==> if k in ENCRYPT_EXCEPTIONS then outs[k].Copied? else Sealed(outs[k])
    case OutList(list) => forall i :: 0 <= i < |list| ==> Sealed(list[i])
    case Copied(_) => false
    case _ => true
  }

  lemma {:induction false} NothingLeaks(c: LeafCipher, g: Graph, r: Ref, depth: nat, out: Out)
    requires Closed(g) && r in g && Encrypt(c, g, r, depth) == Done(out)
    ensures Sealed(out)
    decreases MAX_DEPTH + 1 - depth, 1
  {
    EncryptTop(c, g, r, depth, out);
    if depth <= MAX_DEPTH && out.OutDict? {
      forall k | k in out.outs && k !in ENCRYPT_EXCEPTIONS ensures Sealed(out.outs[k]) {
        ChildSealed(c, g, r, depth, out, Key(k));
      }
    } else if depth <= MAX_DEPTH && out.OutList? {
      forall i | 0 <= i < |out.list| ensures Sealed(out.list[i]) { ChildSealed(c, g, r, depth, out, Index(i)); }
    }
  }

  lemma {:induction false} ChildSealed(c: LeafCipher, g: Graph, r: Ref, depth: nat, out: Out, m: Move)
    requires Closed(g) && r in g && depth <= MAX_DEPTH && Encrypt(c, g, r, depth) == Done(out)
    requires (m.Key? ==> m.k !in ENCRYPT_EXCEPTIONS) && OutChild(out, m).Some?
    ensures Sealed(OutChild(out, m).value)
    decreases MAX_DEPTH + 1 - depth, 0
  {
    EncryptChild(c, g, r, depth, out, m);
    NothingLeaks(c, g, Child(g[r], m).value, depth + 1, OutChild(out, m).value);
  }

  /** A leaf that cannot be encrypted, reached within the bound and not under an exempt key. */
  predicate FailsAt(c: LeafCipher, g: Graph, r: Ref, depth: nat, p: seq<Move>)
    requires Closed(g) && r in g
  {
    && Covered(p) && depth + |p| <= MAX_DEPTH && Walk(g, r, p).Some?
    && g[Walk(g, r, p).value].Leaf? && c(g[Walk(g, r, p).value].value).None?
  }

  /** An error has a cause: a leaf, or an error one move below. */
  lemma ErrorCause(c: LeafCipher, g: Graph, r: Ref, depth: nat) returns (m: Move)
    requires Closed(g) && r in g && Encrypt(c, g, r, depth).Error?
    ensures depth <= MAX_DEPTH
    ensures !g[r].Leaf? ==>
      && (m.Key? ==> m.k !in ENCRYPT_EXCEPTIONS)
      && Child(g[r], m).Some? && Encrypt(c, g, Child(g[r], m).value, depth + 1).Error?
    ensures g[r].Leaf? ==> c(g[r].value).None?
  {
    match ToDict(g[r])
    case Dict(entries) =>
      var k :| k in entries && k !in ENCRYPT_EXCEPTIONS
          && (assert entries[k] in Children(g[r]); Encrypt(c, g, entries[k], depth + 1).Error?);
      m := Key(k);
    case List(items) =>
      var i :| 0 <= i < |items| && (assert items[i] in Children(g[r]); Encrypt(c, g, items[i], depth + 1).Error?);
      m := Index(i);
    case Leaf(v) => m := Index(0);
  }

  lemma {:induction false} FailureReached(c: LeafCipher, g: Graph, r: Ref, depth: nat) returns (p: seq<Move>)
    requires Closed(g) && r in g && Encrypt(c, g, r, depth).Error?
    ensures FailsAt(c, g, r, depth, p)
    decreases MAX_DEPTH + 1 - depth
  {
    var m := ErrorCause(c, g, r, depth);
    if g[r].Leaf? {
      p := [];
    } else {
      var x := Child(g[r], m).value;
      var q := FailureReached(c, g, x, depth + 1);
      p := FailsBelow(c, g, r, depth, m, x, q);
    }
  }

  lemma FailsBelow(c: LeafCipher, g: Graph, r: Ref, depth: nat, m: Move, x: Ref, q: seq<Move>) returns (p: seq<Move>)
    requires Closed(g) && r in g && Child(g[r], m) == Some(x) && (m.Key? ==> m.k !in ENCRYPT_EXCEPTIONS)
        && FailsAt(c, g, x, depth + 1, q)
    ensures FailsAt(c, g, r, depth, p)
  {
    p := [m] + q;
    assert p[0] == m && p[1..] == q;
  }

  /** The payload becomes an error text exactly when there is no key or some leaf within the bound and
      outside the exempt keys cannot be encrypted. */
  lemma FailsExactly(key: Option<LeafCipher>, g: Graph, r: Ref)
    requires Closed(g) && r in g
    ensures EncryptPayload(key, g, r).ErrorText? <==> key.None? || exists p :: FailsAt(key.value, g, r, 0, p)
  {
    if key.Some? {
      if Encrypt(key.value, g, r, 0).Error? {
        var p := FailureReached(key.value, g, r, 0);
      } else {
        forall p | FailsAt(key.value, g, r, 0, p) ensures false {
          PositionsKept(key.value, g, r, 0, Encrypt(key.value, g, r, 0).out, p);
        }
      }
    }
  }

  /** The encrypted payload: positions outside the exempt keys correspond, nothing leaks. */
  lemma PayloadEncrypted(key: Option<LeafCipher>, g: Graph, r: Ref)
    requires Closed(g) && r in g && EncryptPayload(key, g, r).Encrypted?
    ensures Sealed(EncryptPayload(key, g, r).out)
    ensures forall p :: Covered(p) && |p| <= MAX_DEPTH + 1 ==>
      var x, o := Walk(g, r, p), OutAt(EncryptPayload(key, g, r).out, p);
      (x.Some? <==> o.Some?) && (x.Some? ==> StandsFor(key.value, g, x.value, |p|, o.value))
  {
    NothingLeaks(key.value, g, r, 0, Encrypt(key.value, g, r, 0).out);
    forall p | Covered(p) && |p| <= MAX_DEPTH + 1
      ensures var x, o := Walk(g, r, p), OutAt(EncryptPayload(key, g, r).out, p);
        (x.Some? <==> o.Some?) && (x.Some? ==> StandsFor(key.value, g, x.value, |p|, o.value))
    {
      PositionsKept(key.value, g, r, 0, Encrypt(key.value, g, r, 0).out, p);
    }
  }
}
