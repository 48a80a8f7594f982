/**
 * The backing files as `json.load` returns them and `json.dump` takes them:
 * a list of objects, one per record. JSON text itself is not modelled.
 */
module Json {
  import opened Wrappers
  import opened Text

  datatype Value = Str(s: string) | Num(n: int) | Bool(b: bool) | Null

  type Object = map<string, Value>

  /**
   * Whether `Ctor(**obj)` binds: every key names a parameter of the constructor
   * and every parameter without a default is given. Otherwise Python raises TypeError.
   */
  predicate Binds(obj: Object, params: set<string>, required: set<string>) {
    obj.Keys <= params && required <= obj.Keys
  }

  /** A string-valued key that the constructor requires. */
  function TextAt(obj: Object, key: string): Option<string>
    requires key in obj
  {
    match obj[key]
    case Str(s) => Some(s)
    case _ => None
  }

  /** A number-valued key that the constructor requires. */
  function NumberAt(obj: Object, key: string): Option<int>
    requires key in obj
  {
    match obj[key]
    case Num(n) => Some(n)
    case _ => None
  }

  /** A parameter defaulting to `None`: absent or null gives `None`, a string gives itself. */
  function OptionalTextAt(obj: Object, key: string): Option<Option<string>> {
    if key !in obj then Some(None)
    else match obj[key]
      case Null => Some(None)
      case Str(s) => Some(Some(s))
      case _ => None
  }

  /**
   * A timestamp parameter written `date or now()`: absent, null or the empty
   * string all give the current time `now`.
   */
  function StampAt(obj: Object, key: string, now: Stamp): (r: Option<Stamp>)
    ensures key !in obj ==> r == Some(now)
  {
    if key !in obj then Some(now)
    else match obj[key]
      case Null => Some(now)
      case Str(s) => Some(if s == "" then now else s)
      case _ => None
  }

  /** `[Ctor(**o) for o in objs]`: every object decodes, or the whole load fails. */
  function DecodeAll<T>(objs: seq<Object>, decode: Object -> Option<T>): (r: Option<seq<T>>)
    ensures r.Some? <==> forall i :: 0 <= i < |objs| ==> decode(objs[i]).Some?
    ensures r.Some? ==> |r.value| == |objs|
    ensures r.Some? ==> forall i :: 0 <= i < |objs| ==> decode(objs[i]) == Some(r.value[i])
    decreases |objs|
  {
    if objs == [] then Some([])
    else
      match (decode(objs[0]), DecodeAll(objs[1..], decode))
      case (Some(x), Some(xs)) => Some([x] + xs)
      case _ => None
  }

  /** `[{...} for x in xs]`: the list `json.dump` writes. */
  function EncodeAll<T>(xs: seq<T>, encode: T -> Object): (r: seq<Object>)
    ensures |r| == |xs|
  {
    seq(|xs|, i requires 0 <= i < |xs| => encode(xs[i]))
  }

  /** Loading the backing file: an absent file is an empty list, not an error. */
  function Load<T>(disk: Option<seq<Object>>, decode: Object -> Option<T>): Option<seq<T>> {
    match disk
    case None => Some([])
    case Some(objs) => DecodeAll(objs, decode)
  }

  /** When each record survives encoding and decoding, so does the whole list. */
  lemma DecodeEncodeAll<T>(xs: seq<T>, encode: T -> Object, decode: Object -> Option<T>)
    requires forall x :: x in xs ==> decode(encode(x)) == Some(x)
    ensures DecodeAll(EncodeAll(xs, encode), decode) == Some(xs)
  {
    var objs := EncodeAll(xs, encode);
    forall i | 0 <= i < |objs| ensures decode(objs[i]) == Some(xs[i]) {
      assert xs[i] in xs;
    }
    var r := DecodeAll(objs, decode);
    assert r.Some?;
    assert r.value == xs by {
      forall i | 0 <= i < |xs| ensures r.value[i] == xs[i] {
        assert decode(objs[i]) == Some(r.value[i]);
      }
    }
  }
}
