/**
 * JSON values as the request and response bodies carry them, and the
 * outcome of decoding a body. Go's encoding/json is not part of this model:
 * a body is described by the tree it encodes, and a decoder by whether it
 * produced a value.
 */
module Json {

  /** A JSON value. Numbers are integers: the bodies built here hold only Go ints. */
  datatype Json =
    | JNull
    | JBool(b: bool)
    | JInt(i: int)
    | JString(s: string)
    | JArray(items: seq<Json>)
    | JObject(members: map<string, Json>)

  /** What a json.Decoder produced from a response body. */
  datatype Decoding<T> = Decoded(value: T) | DecodeFailed(cause: string)

  // ---------------------------------------------------------------------
  // Struct encoding: a Go struct's fields, each with its JSON tag
  // ---------------------------------------------------------------------

  /** One exported struct field: its tag name, its value as JSON, and whether the tag says omitempty. */
  datatype Field = Field(tag: string, value: Json, omitEmpty: bool)

  /** The values omitempty drops: false, 0, "", an empty map or list, null. */
  predicate IsEmptyValue(j: Json)
  {
    match j
    case JNull => true
    case JBool(b) => !b
    case JInt(i) => i == 0
    case JString(s) => s == ""
    case JArray(items) => |items| == 0
    case JObject(members) => |members| == 0
  }

  /** A field is written unless it is omitempty and holds an empty value. */
  predicate Written(f: Field)
  {
    !(f.omitEmpty && IsEmptyValue(f.value))
  }

  /** No two fields share a tag. */
  predicate DistinctTags(fs: seq<Field>)
  {
    forall i, j :: 0 <= i < j < |fs| ==> fs[i].tag != fs[j].tag
  }

  /** No field of a shares a tag with a field of b. */
  predicate TagsDisjoint(a: seq<Field>, b: seq<Field>)
  {
    forall i, j :: 0 <= i < |a| && 0 <= j < |b| ==> a[i].tag != b[j].tag
  }

  /** Two field runs with distinct tags and no tag in common make one run with distinct tags. */
  lemma DistinctTagsAppend(a: seq<Field>, b: seq<Field>)
    requires DistinctTags(a) && DistinctTags(b) && TagsDisjoint(a, b)
    ensures DistinctTags(a + b)
  {
    var ab := a + b;
    forall i, j | 0 <= i < j < |ab| ensures ab[i].tag != ab[j].tag {
      if j < |a| {
        assert ab[i] == a[i] && ab[j] == a[j];
      } else if i < |a| {
        assert ab[i] == a[i] && ab[j] == b[j - |a|];
      } else {
        assert ab[i] == b[i - |a|] && ab[j] == b[j - |a|];
      }
    }
  }

  lemma TagsDisjointAppend(a: seq<Field>, b: seq<Field>, c: seq<Field>)
    requires TagsDisjoint(a, c) && TagsDisjoint(b, c)
    ensures TagsDisjoint(a + b, c)
  {
    var ab := a + b;
    forall i, j | 0 <= i < |ab| && 0 <= j < |c| ensures ab[i].tag != c[j].tag {
      if i < |a| {
        assert ab[i] == a[i];
      } else {
        assert ab[i] == b[i - |a|];
      }
    }
  }

  /** Some field carries the tag. */
  predicate HasTag(fs: seq<Field>, k: string)
  {
    exists i :: 0 <= i < |fs| && fs[i].tag == k
  }

  /** The JSON object encoding/json writes for a struct: the written fields, under their tags. */
  function EncodeStruct(fs: seq<Field>): map<string, Json>
    decreases |fs|
  {
    if |fs| == 0 then map[]
    else
      var rest := EncodeStruct(fs[1..]);
      if Written(fs[0]) then rest[fs[0].tag := fs[0].value] else rest
  }

  /** A tag no field carries is not a member. */
  lemma {:induction false} EncodeAbsent(fs: seq<Field>, k: string)
    requires !HasTag(fs, k)
    ensures k !in EncodeStruct(fs)
    decreases |fs|
  {
    if |fs| > 0 {
      assert fs[0].tag != k;
      assert !HasTag(fs[1..], k) by {
        forall j | 0 <= j < |fs| - 1 ensures fs[1..][j].tag != k {
          assert fs[1..][j] == fs[j + 1];
        }
      }
      EncodeAbsent(fs[1..], k);
    }
  }

  /**
   * With distinct tags, field i is a member exactly when it is written, and
   * then under its own value.
   */
  lemma {:induction false} EncodeLookup(fs: seq<Field>, i: int)
    requires DistinctTags(fs)
    requires 0 <= i < |fs|
    ensures fs[i].tag in EncodeStruct(fs) <==> Written(fs[i])
    ensures fs[i].tag in EncodeStruct(fs) ==> EncodeStruct(fs)[fs[i].tag] == fs[i].value
    decreases |fs|
  {
    var rest := fs[1..];
    assert DistinctTags(rest) by {
      forall a, b | 0 <= a < b < |rest| ensures rest[a].tag != rest[b].tag {
        assert rest[a] == fs[a + 1] && rest[b] == fs[b + 1];
      }
    }
    if i == 0 {
      if !Written(fs[0]) {
        assert !HasTag(rest, fs[0].tag) by {
          forall j | 0 <= j < |rest| ensures rest[j].tag != fs[0].tag {
            assert rest[j] == fs[j + 1];
          }
        }
        EncodeAbsent(rest, fs[0].tag);
      }
    } else {
      assert fs[0].tag != fs[i].tag;
      assert fs[i] == rest[i - 1];
      EncodeLookup(rest, i - 1);
    }
  }

  /** Every member of an encoded struct is a field that was written, under that field's value. */
  lemma EncodeMembers(fs: seq<Field>, k: string)
    requires DistinctTags(fs)
    requires k in EncodeStruct(fs)
    ensures exists i :: 0 <= i < |fs| && fs[i].tag == k && Written(fs[i]) && EncodeStruct(fs)[k] == fs[i].value
  {
    if !HasTag(fs, k) {
      EncodeAbsent(fs, k);
    }
    var i :| 0 <= i < |fs| && fs[i].tag == k;
    EncodeLookup(fs, i);
  }

  // ---------------------------------------------------------------------
  // Reading members back as the decoder fills Go fields
  // ---------------------------------------------------------------------

  /** A missing or mistyped member leaves the field at its zero value. */
  function StringAt(m: map<string, Json>, key: string): string
  {
    if key in m && m[key].JString? then m[key].s else ""
  }

  function IntAt(m: map<string, Json>, key: string): int
  {
    if key in m && m[key].JInt? then m[key].i else 0
  }

  function BoolAt(m: map<string, Json>, key: string): bool
  {
    key in m && m[key].JBool? && m[key].b
  }

  function ObjectAt(m: map<string, Json>, key: string): map<string, Json>
  {
    if key in m && m[key].JObject? then m[key].members else map[]
  }

  function ArrayAt(m: map<string, Json>, key: string): seq<Json>
  {
    if key in m && m[key].JArray? then m[key].items else []
  }

  /** A field read back from an object that holds it exactly when it is written. */
  lemma ReadField(m: map<string, Json>, f: Field)
    requires f.tag in m <==> Written(f)
    requires f.tag in m ==> m[f.tag] == f.value
    ensures f.value.JString? ==> StringAt(m, f.tag) == f.value.s
    ensures f.value.JInt? ==> IntAt(m, f.tag) == f.value.i
    ensures f.value.JBool? ==> BoolAt(m, f.tag) == f.value.b
    ensures f.value.JObject? ==> ObjectAt(m, f.tag) == f.value.members
    ensures f.value.JArray? ==> ArrayAt(m, f.tag) == f.value.items
  {
    if !Written(f) {
      match f.value
      case JObject(members) => assert members == map[];
      case JArray(items) => assert items == [];
      case _ =>
    }
  }

  /** Decoding the encoded struct gives every field back, omitted or not. */
  lemma ReadBack(fs: seq<Field>, i: int)
    requires DistinctTags(fs)
    requires 0 <= i < |fs|
    ensures var m, f := EncodeStruct(fs), fs[i];
      && (f.value.JString? ==> StringAt(m, f.tag) == f.value.s)
      && (f.value.JInt? ==> IntAt(m, f.tag) == f.value.i)
      && (f.value.JBool? ==> BoolAt(m, f.tag) == f.value.b)
      && (f.value.JObject? ==> ObjectAt(m, f.tag) == f.value.members)
      && (f.value.JArray? ==> ArrayAt(m, f.tag) == f.value.items)
  {
    EncodeLookup(fs, i);
    ReadField(EncodeStruct(fs), fs[i]);
  }
}
