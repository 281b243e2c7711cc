/** The slice of JavaScript value semantics the gateway relies on: truthiness,
    the `||` operator, and reading a property (which walks the prototype chain
    and throws a TypeError on `null` and `undefined`). */
module JsValues {

  datatype Option<+T> = None | Some(value: T)

  /** A JavaScript value. Numbers are reals plus NaN; BigInt and symbols are not modelled. */
  datatype JsValue =
    | Undefined
    | Null
    | Bool(b: bool)
    | Num(n: real)
    | NaN
    | Str(s: string)
    | Obj(obj: JsObject)

  /** An object: its own properties and its prototype (None stands for a chain
      that ends in a prototype holding none of the keys read here). */
  datatype JsObject = JsObject(own: map<string, Prop>, proto: Option<JsObject>)

  /** An own property: a data property, or an accessor whose getter, on this
      read, either yields a value (Some) or throws (None). */
  datatype Prop = Data(value: JsValue) | Getter(outcome: Option<JsValue>)

  /** ToBoolean: the falsy values are undefined, null, false, 0 (and -0), NaN and "". */
  predicate Truthy(v: JsValue)
    ensures Truthy(v) <==> v !in {Undefined, Null, Bool(false), Num(0.0), NaN, Str("")}
  {
    match v
    case Undefined => false
    case Null => false
    case Bool(b) => b
    case Num(n) => n != 0.0
    case NaN => false
    case Str(s) => s != ""
    case Obj(_) => true
  }

  predicate Nullish(v: JsValue)
  {
    v == Null || v == Undefined
  }

  /** `a || b`: the left operand when it is truthy, the right one otherwise. */
  function Or(a: JsValue, b: JsValue): (r: JsValue)
    ensures Truthy(a) ==> r == a
    ensures !Truthy(a) ==> r == b
    ensures Truthy(r) <==> Truthy(a) || Truthy(b)
  {
    if Truthy(a) then a else b
  }

  /** [[Get]] on an object: the nearest own property on the prototype chain
      decides; None means the read threw. An own property shadows the chain,
      and a read throws only through a throwing getter somewhere on the chain. */
  function Get(o: JsObject, key: string): (r: Option<JsValue>)
    ensures key in o.own ==> r == ReadProp(o.own[key])
    ensures r.None? ==>
              exists i :: 0 <= i < |Chain(o)| && key in Chain(o)[i].own && Chain(o)[i].own[key] == Getter(None)
  {
    if key in o.own then
      assert Chain(o)[0] == o;
      ReadProp(o.own[key])
    else
      match o.proto
      case None => Some(Undefined)
      case Some(p) =>
        assert Chain(o) == [o] + Chain(p);
        assert forall i :: 0 <= i < |Chain(p)| ==> Chain(o)[i + 1] == Chain(p)[i];
        Get(p, key)
  }

  /** `v.message` on an arbitrary value. Reading a property of `null` or
      `undefined` throws; the prototypes of booleans, numbers and strings have
      no `message` property, so such a read gives `undefined`. */
  function GetMessage(v: JsValue): (r: Option<JsValue>)
    ensures Nullish(v) ==> r == None
    ensures !v.Obj? && !Nullish(v) ==> r == Some(Undefined)
    ensures v.Obj? ==> r == Get(v.obj, "message")
  {
    match v
    case Undefined => None
    case Null => None
    case Obj(o) => Get(o, "message")
    case _ => Some(Undefined)
  }

  /** No object on the chain has an accessor property. */
  predicate NoGetters(o: JsObject)
  {
    (forall k :: k in o.own ==> o.own[k].Data?)
    && (o.proto.Some? ==> NoGetters(o.proto.value))
  }

  lemma {:induction false} NoGettersGetIsSafe(o: JsObject, key: string)
    requires NoGetters(o)
    ensures Get(o, key).Some?
  {
    if key !in o.own && o.proto.Some? {
      NoGettersGetIsSafe(o.proto.value, key);
    }
  }

  /** The prototype chain as a sequence, starting at the object itself. */
  function Chain(o: JsObject): (c: seq<JsObject>)
    ensures |c| >= 1 && c[0] == o
  {
    [o] + match o.proto case None => [] case Some(p) => Chain(p)
  }

  /** The outcome of reading a property from its owner. */
  function ReadProp(p: Prop): Option<JsValue>
  {
    match p
    case Data(v) => Some(v)
    case Getter(y) => y
  }

  /** Lookup agrees with the reference reading of the chain: when no object on it
      owns the key the result is `undefined`; otherwise the first owner decides. */
  lemma {:induction false} GetIsNearestOwner(o: JsObject, key: string)
    ensures (forall i :: 0 <= i < |Chain(o)| ==> key !in Chain(o)[i].own) ==> Get(o, key) == Some(Undefined)
    ensures forall i :: 0 <= i < |Chain(o)| && key in Chain(o)[i].own
                        && (forall j :: 0 <= j < i ==> key !in Chain(o)[j].own)
                        ==> Get(o, key) == ReadProp(Chain(o)[i].own[key])
  {
    match o.proto
    case None =>
      assert Chain(o) == [o];
    case Some(p) =>
      GetIsNearestOwner(p, key);
      var c := Chain(o);
      assert c == [o] + Chain(p);
      forall i | 0 <= i < |c| && key in c[i].own && (forall j :: 0 <= j < i ==> key !in c[j].own)
        ensures Get(o, key) == ReadProp(c[i].own[key])
      {
        if i > 0 {
          assert key !in c[0].own;
          assert c[i] == Chain(p)[i - 1];
          forall j | 0 <= j < i - 1 ensures key !in Chain(p)[j].own {
            assert Chain(p)[j] == c[j + 1];
          }
        }
      }
      if forall i :: 0 <= i < |c| ==> key !in c[i].own {
        assert key !in c[0].own;
        forall i | 0 <= i < |Chain(p)| ensures key !in Chain(p)[i].own {
          assert Chain(p)[i] == c[i + 1];
        }
      }
  }
}
