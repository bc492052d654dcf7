/** JSON documents and the Go values encoding/json converts them to and from.
  * A document is kept as a tree; its text form is not modelled (parsing and rendering are
  * parameters of the modules that need them). Object member order is not kept. */
module GoJson {
  import opened Wrappers
  import opened GoText

  datatype Json =
    | JNull
    | JBool(b: bool)
    | JNumber(n: real)
    | JString(s: string)
    | JArray(items: seq<Json>)
    | JObject(members: map<string, Json>)

  /** A Go value stored in an `interface{}`, told apart as far as encoding/json tells them
    * apart: untyped nil, the dynamic types `json.Unmarshal` produces, Go ints, and every
    * other Go type (structs, typed slices and maps, pointers) as a `Record` known only by
    * the document `json.Marshal` makes of it (None when Marshal reports an error). */
  datatype Value =
    | Nil
    | Bool(b: bool)
    | Int(i: int)
    | Float(x: real)
    | Str(s: string)
    | List(items: seq<Value>)
    | Object(fields: map<string, Value>)
    | Record(encoding: Option<Json>)

  /** json.Marshal: fails exactly when some part of the value cannot be encoded. */
  function Marshal(v: Value): (r: Option<Json>)
    ensures v.Record? ==> r == v.encoding
    ensures v.List? && r.Some? ==> r.value.JArray? && |r.value.items| == |v.items|
    ensures v.Object? && r.Some? ==> r.value.JObject? && r.value.members.Keys == v.fields.Keys
    ensures !v.List? && !v.Object? && !v.Record? ==> r.Some?
  {
    match v
    case Nil => Some(JNull)
    case Bool(b) => Some(JBool(b))
    case Int(i) => Some(JNumber(i as real))
    case Float(x) => Some(JNumber(x))
    case Str(s) => Some(JString(s))
    case List(items) =>
      if forall i :: 0 <= i < |items| ==> Marshal(items[i]).Some? then
        Some(JArray(seq(|items|, i requires 0 <= i < |items| => Marshal(items[i]).value)))
      else None
    case Object(fields) =>
      if forall k :: k in fields ==> Marshal(fields[k]).Some? then
        Some(JObject(map k | k in fields :: Marshal(fields[k]).value))
      else None
    case Record(e) => e
  }

  /** json.Unmarshal into an `interface{}`: numbers become float64, arrays []interface{},
    * objects map[string]interface{}. */
  function Unmarshal(j: Json): (v: Value)
    ensures Decoded(v)
  {
    match j
    case JNull => Nil
    case JBool(b) => Bool(b)
    case JNumber(n) => Float(n)
    case JString(s) => Str(s)
    case JArray(items) => List(seq(|items|, i requires 0 <= i < |items| => Unmarshal(items[i])))
    case JObject(members) => Object(map k | k in members :: Unmarshal(members[k]))
  }

  /** The values json.Unmarshal can produce into an `interface{}`. */
  predicate Decoded(v: Value) {
    match v
    case Int(_) => false
    case Record(_) => false
    case List(items) => forall i :: 0 <= i < |items| ==> Decoded(items[i])
    case Object(fields) => forall k :: k in fields ==> Decoded(fields[k])
    case _ => true
  }

  /** Decoding a document and encoding the value again gives the same document. */
  lemma {:induction false} MarshalUnmarshal(j: Json)
    ensures Marshal(Unmarshal(j)) == Some(j)
  {
    match j
    case JArray(items) =>
      forall i | 0 <= i < |items| {
        MarshalUnmarshal(items[i]);
      }
      assert Marshal(Unmarshal(j)).value.items == items;
    case JObject(members) =>
      forall k | k in members {
        MarshalUnmarshal(members[k]);
      }
      assert Marshal(Unmarshal(j)).value.members == members;
    case _ =>
  }

  /** Encoding a decoded value and decoding the document again gives the same value. */
  lemma {:induction false} UnmarshalMarshal(v: Value)
    requires Decoded(v) && Marshal(v).Some?
    ensures Unmarshal(Marshal(v).value) == v
  {
    match v
    case List(items) =>
      forall i | 0 <= i < |items| {
        UnmarshalMarshal(items[i]);
      }
      assert Unmarshal(Marshal(v).value).items == items;
    case Object(fields) =>
      forall k | k in fields {
        UnmarshalMarshal(fields[k]);
      }
      assert Unmarshal(Marshal(v).value).fields == fields;
    case _ =>
  }

  // ----- decoding an object into a Go struct -----

  /** The form in which encoding/json compares an object key with a struct field's name: each
    * code point lower-cased and then upper-cased. For the ASCII field names of this program a
    * key names a field exactly when the two agree in this form, so "ID", "Id" and "id" all name
    * the field `id`. */
  function FoldName(k: string): string {
    Upper(Lower(k))
  }

  /** The keys of an object that json.Unmarshal stores into the struct field `name`. */
  function FieldKeys(m: map<string, Json>, name: string): set<string> {
    set k | k in m.Keys && FoldName(k) == FoldName(name)
  }

  /** Code-point order on strings. */
  predicate CodeLe(a: string, b: string)
    decreases |a|
  {
    a == [] || (b != [] && (a[0] < b[0] || (a[0] == b[0] && CodeLe(a[1..], b[1..]))))
  }

  lemma {:induction false} CodeLeReflexive(a: string)
    ensures CodeLe(a, a)
    decreases |a|
  {
    if a != [] {
      CodeLeReflexive(a[1..]);
    }
  }

  lemma {:induction false} CodeLeTotal(a: string, b: string)
    ensures CodeLe(a, b) || CodeLe(b, a)
    decreases |a|
  {
    if a != [] && b != [] && a[0] == b[0] {
      CodeLeTotal(a[1..], b[1..]);
    }
  }

  lemma {:induction false} CodeLeAntisymmetric(a: string, b: string)
    requires CodeLe(a, b) && CodeLe(b, a)
    ensures a == b
    decreases |a|
  {
    if a != [] {
      CodeLeAntisymmetric(a[1..], b[1..]);
      assert a == [a[0]] + a[1..] && b == [b[0]] + b[1..];
    }
  }

  lemma {:induction false} CodeLeTransitive(a: string, b: string, c: string)
    requires CodeLe(a, b) && CodeLe(b, c)
    ensures CodeLe(a, c)
    decreases |a|
  {
    if a != [] && b != [] && c != [] && a[0] == b[0] && b[0] == c[0] {
      CodeLeTransitive(a[1..], b[1..], c[1..]);
    }
  }

  predicate IsLeast(ks: set<string>, k: string) {
    k in ks && forall j :: j in ks ==> CodeLe(k, j)
  }

  /** Every finite non-empty set of strings has a least element. */
  lemma {:induction false} LeastExists(ks: set<string>)
    requires ks != {}
    ensures exists k :: IsLeast(ks, k)
    decreases |ks|
  {
    var x :| x in ks;
    CodeLeReflexive(x);
    if ks != {x} {
      var rest := ks - {x};
      LeastExists(rest);
      var m :| IsLeast(rest, m);
      CodeLeTotal(x, m);
      if CodeLe(x, m) {
        forall j | j in ks
          ensures CodeLe(x, j)
        {
          if j != x {
            CodeLeTransitive(x, m, j);
          }
        }
        assert IsLeast(ks, x);
      } else {
        assert IsLeast(ks, m);
      }
    } else {
      assert IsLeast(ks, x);
    }
  }

  lemma LeastIsUnique()
    ensures forall ks: set<string>, a, b :: IsLeast(ks, a) && IsLeast(ks, b) ==> a == b
  {
    forall ks: set<string>, a, b | IsLeast(ks, a) && IsLeast(ks, b)
      ensures a == b
    {
      CodeLeAntisymmetric(a, b);
    }
  }

  /** The least key of a non-empty set, in code-point order. */
  function Least(ks: set<string>): (k: string)
    requires ks != {}
    ensures IsLeast(ks, k)
  {
    LeastExists(ks);
    LeastIsUnique();
    var k :| IsLeast(ks, k);
    k
  }

  /** The member json.Unmarshal stores into the struct field `name`: none when no key names the
    * field, and the member of the one key that does. Go assigns the keys naming a field in
    * document order, so the last one wins; an object here does not keep that order, so when
    * several keys name the field the model takes the key spelled exactly as the field, and
    * otherwise the least such key in code-point order. */
  function FieldMember(m: map<string, Json>, name: string): (r: Option<Json>)
    ensures r.None? <==> FieldKeys(m, name) == {}
    ensures r.Some? ==> exists k :: k in FieldKeys(m, name) && m[k] == r.value
    ensures name in m ==> r == Some(m[name])
  {
    if name in m then
      assert name in FieldKeys(m, name);
      Some(m[name])
    else
      var ks := FieldKeys(m, name);
      if ks == {} then None else Some(m[Least(ks)])
  }

  /** A key that is the only one naming the field supplies the field, whatever its letter case. */
  lemma OnlyKeyNamesField(m: map<string, Json>, name: string, k: string)
    requires FieldKeys(m, name) == {k}
    ensures FieldMember(m, name) == Some(m[k])
  {
  }

}
