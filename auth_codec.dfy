/**
 * The byte normalisation and JSON tag codec of backend/src/helpers/authState.ts:
 * `toBuffer`, `toBufferDeep` and the `BufferJSON` replacer and reviver, plus the
 * bottom-up walk with which `JSON.parse` applies the reviver.
 */
module AuthCodec {
  import opened JsValue
  import Base64

  /** `v && v.type === "Buffer" && typeof v.data === "string"` on an object. */
  predicate IsBufferTag(v: Value) {
    v.Obj? && "type" in v.fields && v.fields["type"] == Str("Buffer")
    && "data" in v.fields && v.fields["data"].Str?
  }

  /** `Object.keys(v).every(k => /^\d+$/.test(k))`: vacuously true of `{}`. */
  predicate AllDigitKeys(m: map<string, Value>) {
    forall k :: k in m ==> IsDigits(k)
  }

  /** What `toBuffer` turns into bytes: buffers, tags, arrays and all-digit-keyed objects. */
  predicate Convertible(v: Value) {
    v.Bytes? || v.Arr? || IsBufferTag(v) || (v.Obj? && AllDigitKeys(v.fields))
  }

  /** `Buffer.from(Uint8Array.from(vs))`. */
  function BytesOf(vs: seq<Value>): (r: seq<byte>)
    ensures |r| == |vs| && forall i :: 0 <= i < |vs| ==> r[i] == ToByte(vs[i])
  {
    seq(|vs|, i requires 0 <= i < |vs| => ToByte(vs[i]))
  }

  /**
   * `toBuffer`. An array is caught by the digit-key test as well, since its
   * keys are its indices.
   */
  function ToBuffer(v: Value): (r: Value)
    ensures r.Bytes? <==> Convertible(v)
    ensures !r.Bytes? ==> r == v
    ensures v.Bytes? ==> r == v
    ensures IsBufferTag(v) ==> r == Bytes(Base64.Decode(v.fields["data"].s))
    ensures v.Arr? ==> |r.data| == |v.items|
                       && forall i :: 0 <= i < |v.items| ==> r.data[i] == ToByte(v.items[i])
    ensures v.Obj? && !IsBufferTag(v) && AllDigitKeys(v.fields) ==> |r.data| == |v.fields|
  {
    match v
    case Bytes(_) => v
    case Arr(items) => Bytes(BytesOf(items))
    case Obj(m) =>
      if IsBufferTag(v) then Bytes(Base64.Decode(m["data"].s))
      else if AllDigitKeys(m) then
        var ks := SortedKeys(m.Keys);
        Bytes(BytesOf(seq(|ks|, i requires 0 <= i < |ks| => m[ks[i]])))
      else v
    case _ => v
  }

  /** `toBufferDeep`: rebuilds arrays and objects, and calls `toBuffer` only on buffers. */
  function ToBufferDeep(v: Value): (r: Value)
    ensures v.Arr? <==> r.Arr?
    ensures v.Obj? <==> r.Obj?
    ensures v.Bytes? <==> r.Bytes?
    ensures v.Arr? ==> |r.items| == |v.items|
    ensures v.Obj? ==> r.fields.Keys == v.fields.Keys
    ensures v.Bytes? ==> r.data == v.data
    ensures !v.Arr? && !v.Obj? ==> r == v
  {
    match v
    case Undefined => v
    case Null => v
    case Bytes(_) => ToBuffer(v)
    case Arr(items) => Arr(seq(|items|, i requires 0 <= i < |items| => ToBufferDeep(items[i])))
    case Obj(m) => Obj(map k | k in m :: ToBufferDeep(m[k]))
    case _ => v
  }

  /** `BufferJSON.replacer`: a buffer becomes `{type: "Buffer", data: <base64>}`. */
  function Replacer(key: string, v: Value): (r: Value)
    ensures v.Bytes? ==> IsBufferTag(r) && r.fields.Keys == {"type", "data"}
                         && Base64.Decode(r.fields["data"].s) == v.data
    ensures !v.Bytes? ==> r == v
  {
    if v.Bytes? then
      Base64.DecodeEncode(v.data);
      Obj(map["type" := Str("Buffer"), "data" := Str(Base64.Encode(v.data))])
    else v
  }

  /** `BufferJSON.reviver`: a tag with string data becomes the bytes it encodes. */
  function Reviver(key: string, v: Value): (r: Value)
    ensures IsBufferTag(v) ==> r.Bytes? && r.data == Base64.Decode(v.fields["data"].s)
    ensures !IsBufferTag(v) ==> r == v
  {
    if Truthy(v) && v.Obj? && "type" in v.fields && v.fields["type"] == Str("Buffer")
       && "data" in v.fields && v.fields["data"].Str?
    then Bytes(Base64.Decode(v.fields["data"].s))
    else v
  }

  /**
   * `JSON.parse(text, BufferJSON.reviver)` after parsing: the reviver is applied
   * to every value, children before their parent. Since the reviver never
   * returns `undefined`, no property is deleted on the way.
   */
  function ReviveDeep(v: Value): (r: Value)
    ensures !v.Arr? && !v.Obj? ==> r == v
    ensures v.Arr? ==> r.Arr? && |r.items| == |v.items|
    ensures v.Arr? ==> forall i :: 0 <= i < |v.items| ==> r.items[i] == ReviveDeep(v.items[i])
    ensures IsBufferTag(v) ==> r == Bytes(Base64.Decode(v.fields["data"].s))
    ensures v.Obj? && !IsBufferTag(v) ==> r.Obj? && r.fields.Keys == v.fields.Keys
    ensures v.Obj? && !IsBufferTag(v) ==> forall k :: k in v.fields ==> r.fields[k] == ReviveDeep(v.fields[k])
  {
    match v
    case Arr(items) => Reviver("", Arr(seq(|items|, i requires 0 <= i < |items| => ReviveDeep(items[i]))))
    case Obj(m) =>
      var revived := map k | k in m :: ReviveDeep(m[k]);
      assert IsBufferTag(Obj(revived)) <==> IsBufferTag(v);
      assert IsBufferTag(v) ==> revived["data"] == m["data"];
      Reviver("", Obj(revived))
    case _ => Reviver("", v)
  }

  /** No buffer tag anywhere in the tree. */
  predicate NoTags(v: Value) {
    match v
    case Arr(items) => forall i :: 0 <= i < |items| ==> NoTags(items[i])
    case Obj(m) => !IsBufferTag(v) && forall k :: k in m ==> NoTags(m[k])
    case _ => true
  }

  // ---- properties ----

  /** The replacer's tag is read back by the reviver as the same bytes. */
  lemma ReviverReplacer(key: string, b: seq<byte>)
    ensures Reviver(key, Replacer(key, Bytes(b))) == Bytes(b)
  {
    Base64.DecodeEncode(b);
  }

  /** `toBuffer`'s tag branch also inverts the replacer. */
  lemma ToBufferReplacer(key: string, b: seq<byte>)
    ensures ToBuffer(Replacer(key, Bytes(b))) == Bytes(b)
  {
    Base64.DecodeEncode(b);
  }

  /**
   * `toBuffer` on an all-digit-keyed object: the byte at position i is the
   * value of the key that exactly i other keys precede.
   */
  lemma {:induction false} ToBufferDigitKeys(m: map<string, Value>, k: string)
    requires !IsBufferTag(Obj(m)) && AllDigitKeys(m) && k in m
    ensures var r := ToBuffer(Obj(m));
            var rank := |set j | j in m && KeyBefore(j, k)|;
            r.Bytes? && rank < |r.data| && r.data[rank] == ToByte(m[k])
  {
    var ks := SortedKeys(m.Keys);
    var p :| 0 <= p < |ks| && ks[p] == k;
    SortedKeysPrefix(ks, p);
    var before := set j | j in m && KeyBefore(j, k);
    var prefix := set i | 0 <= i < p :: ks[i];
    assert before == prefix;
    DistinctIndexSet(ks, p);
    var vals := seq(|ks|, i requires 0 <= i < |ks| => m[ks[i]]);
    assert ToBuffer(Obj(m)) == Bytes(BytesOf(vals));
    assert vals[p] == m[k];
  }

  /** In a sorted key sequence, the keys before position p are exactly those the order puts before ks[p]. */
  lemma SortedKeysPrefix(ks: seq<string>, p: nat)
    requires p < |ks|
    requires forall i :: 0 <= i < |ks| ==> IsDigits(ks[i])
    requires forall i, j :: 0 <= i < j < |ks| ==> KeyBefore(ks[i], ks[j])
    ensures forall i, j :: 0 <= i < j < |ks| ==> ks[i] != ks[j]
    ensures forall q :: 0 <= q < |ks| ==> (KeyBefore(ks[q], ks[p]) <==> q < p)
  {
  }

  /** The first p entries of a duplicate-free sequence form a set of p elements. */
  lemma {:induction false} DistinctIndexSet(ks: seq<string>, p: nat)
    requires p <= |ks|
    requires forall i, j :: 0 <= i < j < |ks| ==> ks[i] != ks[j]
    ensures |set i | 0 <= i < p :: ks[i]| == p
  {
    if p > 0 {
      DistinctIndexSet(ks, p - 1);
      var smaller := set i | 0 <= i < p - 1 :: ks[i];
      assert (set i | 0 <= i < p :: ks[i]) == smaller + {ks[p - 1]};
      assert ks[p - 1] !in smaller;
    }
  }

  /** `toBuffer({})` is the empty buffer, since `every` holds vacuously. */
  lemma ToBufferEmptyObject()
    ensures ToBuffer(Obj(map[])) == Bytes([])
  {
    var none: map<string, Value> := map[];
    assert SortedKeys(none.Keys) == [];
  }

  /** On this value model `toBufferDeep` is a structural copy: it changes nothing. */
  lemma {:induction false} ToBufferDeepIsCopy(v: Value)
    ensures ToBufferDeep(v) == v
  {
    match v
    case Arr(items) =>
      forall i | 0 <= i < |items| ensures ToBufferDeep(items[i]) == items[i] {
        ToBufferDeepIsCopy(items[i]);
      }
    case Obj(m) =>
      forall k | k in m ensures ToBufferDeep(m[k]) == m[k] {
        ToBufferDeepIsCopy(m[k]);
      }
    case _ =>
  }

  /** `toBufferDeep` is idempotent. */
  lemma {:induction false} ToBufferDeepIdempotent(v: Value)
    ensures ToBufferDeep(ToBufferDeep(v)) == ToBufferDeep(v)
  {
    ToBufferDeepIsCopy(v);
  }

  /**
   * A tag or an all-digit-keyed object nested anywhere is left as it is by
   * `toBufferDeep`, although `toBuffer` would turn it into bytes: the tag and
   * digit-key branches of `toBuffer` are not reached from `toBufferDeep`.
   */
  lemma ToBufferDeepSkipsConversions(v: Value)
    requires v.Obj? && (IsBufferTag(v) || AllDigitKeys(v.fields))
    ensures ToBufferDeep(v) == v && ToBuffer(v).Bytes?
  {
    ToBufferDeepIsCopy(v);
  }

  /** Stored data without tags loads unchanged: the walk only touches tags. */
  lemma {:induction false} ReviveDeepFixes(v: Value)
    requires NoTags(v)
    ensures ReviveDeep(v) == v
  {
    match v
    case Arr(items) =>
      forall i | 0 <= i < |items| ensures ReviveDeep(items[i]) == items[i] {
        ReviveDeepFixes(items[i]);
      }
      assert ReviveDeep(v).items == items;
    case Obj(m) =>
      forall k | k in m ensures ReviveDeep(m[k]) == m[k] {
        ReviveDeepFixes(m[k]);
      }
      assert ReviveDeep(v).fields == m;
    case _ =>
  }

  /** After `JSON.parse` with the reviver, no tag with string data is left anywhere in the tree. */
  lemma {:induction false} ReviveDeepNoTags(v: Value)
    ensures NoTags(ReviveDeep(v))
  {
    match v
    case Arr(items) =>
      forall i | 0 <= i < |items| ensures NoTags(ReviveDeep(items[i])) {
        ReviveDeepNoTags(items[i]);
      }
    case Obj(m) =>
      forall k | k in m ensures NoTags(ReviveDeep(m[k])) {
        ReviveDeepNoTags(m[k]);
      }
    case _ =>
  }
}
