/** The shape of what `json.loads` returns (a JSON text, RFC 8259, read into
    Python values), with the Python behaviour the service relies on: truth
    values, type names in error messages, `dict.get` and iteration. */
module Json {
  import opened Outcomes
  import opened Seqs

  /** An object keeps its members as written; `dict` semantics are given by
      `Get` (a later duplicate key wins) and `Keys` (first position kept). */
  datatype Value =
    | Null
    | Bool(b: bool)
    | Int(i: int)
    | Float(x: real)
    | Str(s: string)
    | Arr(items: seq<Value>)
    | Obj(members: seq<(string, Value)>)

  /** What `json.loads` does with a text: a value, or a `JSONDecodeError`
      with its message. */
  datatype Decoded = Parsed(value: Value) | DecodeError(msg: string)

  /** `bool(v)` in Python: `None`, `False`, zero, and empty strings, lists
      and dicts are false. */
  predicate Truthy(v: Value)
  {
    match v
    case Null => false
    case Bool(b) => b
    case Int(i) => i != 0
    case Float(x) => x != 0.0
    case Str(s) => s != ""
    case Arr(items) => items != []
    case Obj(members) => members != []
  }

  /** `type(v).__name__` */
  function TypeName(v: Value): string
  {
    match v
    case Null => "NoneType"
    case Bool(_) => "bool"
    case Int(_) => "int"
    case Float(_) => "float"
    case Str(_) => "str"
    case Arr(_) => "list"
    case Obj(_) => "dict"
  }

  function MemberNames(members: seq<(string, Value)>): (names: seq<string>)
    ensures |names| == |members|
    ensures forall i :: 0 <= i < |members| ==> names[i] == members[i].0
  {
    seq(|members|, i requires 0 <= i < |members| => members[i].0)
  }

  /** No member after position `i` is named `key`. */
  predicate LastNamed(members: seq<(string, Value)>, key: string, i: nat)
  {
    forall j :: i < j < |members| ==> members[j].0 != key
  }

  /** `d.get(key, default)` on the dict `json.loads` builds from `members`:
      the value of the last member with that name, else the default. */
  function Get(members: seq<(string, Value)>, key: string, default: Value): (v: Value)
    ensures key !in MemberNames(members) ==> v == default
    ensures key in MemberNames(members) ==>
      exists i :: 0 <= i < |members| && members[i] == (key, v) && LastNamed(members, key, i)
  {
    if members == [] then default
    else if members[|members| - 1].0 == key then members[|members| - 1].1
    else
      var init := members[..|members| - 1];
      assert MemberNames(members) == MemberNames(init) + [members[|members| - 1].0];
      Get(init, key, default)
  }

  /** Iterating the dict: its distinct keys, in first-insertion order. */
  function Keys(members: seq<(string, Value)>): (keys: seq<string>)
    ensures Distinct(keys)
    ensures forall k :: k in keys <==> k in MemberNames(members)
    ensures forall a, b :: a in keys && b in keys ==>
      (IndexOf(keys, a) < IndexOf(keys, b) <==> IndexOf(MemberNames(members), a) < IndexOf(MemberNames(members), b))
  {
    var names := MemberNames(members);
    var keys := Dedup(names);
    assert forall k :: k in keys ==> k in names by {
      forall k | k in keys ensures k in names {
        var i :| 0 <= i < |keys| && keys[i] == k;
      }
    }
    assert forall k :: k in names ==> k in keys by {
      forall k | k in names ensures k in keys {
        var i :| 0 <= i < |names| && names[i] == k;
      }
    }
    forall a, b | a in keys && b in keys
      ensures IndexOf(keys, a) < IndexOf(keys, b) <==> IndexOf(names, a) < IndexOf(names, b)
    {
      DedupKeepsFirstOccurrenceOrder(names, a, b);
    }
    keys
  }
}
