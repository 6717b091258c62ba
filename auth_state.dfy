/**
 * The auth state of one WhatsApp connection (backend/src/helpers/authState.ts):
 * the category-to-bag table, loading the stored session, and the raw key store
 * whose `set` merges patches into the key bags and persists after every call.
 */
module AuthState {
  import opened Wrappers
  import opened JsValue
  import AuthCodec

  /** Key bags by name, each a map from id to stored value. */
  type Keys = map<string, map<string, Value>>

  /** A `set` argument: categories in `Object.keys` order, each with an id-to-value object. */
  type Patch = seq<(string, map<string, Value>)>

  predicate IsKnownCategory(t: string) {
    t in {"pre-key", "session", "sender-key", "app-state-sync-key",
          "app-state-sync-version", "sender-key-memory"}
  }

  /** The two categories kept raw, never passed through `toBufferDeep`. */
  predicate IsRawCategory(t: string) {
    t == "app-state-sync-key" || t == "app-state-sync-version"
  }

  /**
   * `KEY_MAP[t]` used as a property name: a category missing from the table
   * reads as `undefined`, which names the bag "undefined".
   */
  function BagOf(t: string): (bag: string)
    ensures IsKnownCategory(t) <==> bag != "undefined"
  {
    if t == "pre-key" then "preKeys"
    else if t == "session" then "sessions"
    else if t == "sender-key" then "senderKeys"
    else if t == "app-state-sync-key" then "appStateSyncKeys"
    else if t == "app-state-sync-version" then "appStateVersions"
    else if t == "sender-key-memory" then "senderKeyMemory"
    else "undefined"
  }

  /** Distinct known categories go to distinct bags. */
  lemma BagOfInjective(t: string, u: string)
    requires IsKnownCategory(t) && IsKnownCategory(u) && t != u
    ensures BagOf(t) != BagOf(u)
  {
  }

  /** The value stored for, or returned from, a category. */
  function Normalise(t: string, v: Value): (r: Value)
    ensures r == v
  {
    AuthCodec.ToBufferDeepIsCopy(v);
    if IsRawCategory(t) then v else AuthCodec.ToBufferDeep(v)
  }

  /** `keys[bag]?.[id] !== undefined`. */
  predicate Present(keys: Keys, bag: string, id: string) {
    bag in keys && id in keys[bag] && keys[bag][id] != Undefined
  }

  /** The `ids.reduce` of `get`, from an accumulator `dict`. */
  function GetFrom(keys: Keys, t: string, ids: seq<string>, dict: map<string, Value>): (r: map<string, Value>)
    ensures forall id :: id in r <==> id in dict || (id in ids && Present(keys, BagOf(t), id))
    ensures forall id :: id in r && id !in ids ==> r[id] == dict[id]
    ensures forall id :: id in r && id in ids && Present(keys, BagOf(t), id) ==> r[id] == Normalise(t, keys[BagOf(t)][id])
  {
    if ids == [] then dict
    else
      var id, bag := ids[0], BagOf(t);
      var next := if Present(keys, bag, id) then dict[id := Normalise(t, keys[bag][id])] else dict;
      GetFrom(keys, t, ids[1..], next)
  }

  /** One round of `set`'s loop: make sure the bag exists, then `Object.assign` the payload into it. */
  function MergeEntry(keys: Keys, t: string, payload: map<string, Value>): (r: Keys)
    ensures r.Keys == keys.Keys + {BagOf(t)}
    ensures r[BagOf(t)].Keys == (if BagOf(t) in keys then keys[BagOf(t)].Keys else {}) + payload.Keys
  {
    var bag := BagOf(t);
    var existing := if bag in keys then keys[bag] else map[];
    keys[bag := existing + map id | id in payload :: Normalise(t, payload[id])]
  }

  /** The bags a patch's categories map to. */
  function PatchBags(data: Patch): set<string> {
    set i | 0 <= i < |data| :: BagOf(data[i].0)
  }

  lemma PatchBagsLast(data: Patch)
    requires data != []
    ensures PatchBags(data) == PatchBags(data[..|data| - 1]) + {BagOf(data[|data| - 1].0)}
  {
    var n := |data| - 1;
    forall b | b in PatchBags(data) ensures b in PatchBags(data[..n]) + {BagOf(data[n].0)} {
      var i :| 0 <= i < |data| && BagOf(data[i].0) == b;
      if i < n {
        assert data[..n][i] == data[i];
      }
    }
    forall b | b in PatchBags(data[..n]) ensures b in PatchBags(data) {
      var i :| 0 <= i < n && BagOf(data[..n][i].0) == b;
      assert data[..n][i] == data[i];
    }
  }

  /** The key bags after `set(data)`. */
  function ApplyPatch(keys: Keys, data: Patch): (r: Keys)
    ensures r.Keys == keys.Keys + PatchBags(data)
  {
    if data == [] then keys
    else
      var n := |data| - 1;
      PatchBagsLast(data);
      MergeEntry(ApplyPatch(keys, data[..n]), data[n].0, data[n].1)
  }

  /** `set` never removes an id from a bag: `Object.assign` only adds and overwrites. */
  lemma {:induction false} PatchNeverRemoves(keys: Keys, data: Patch, bag: string)
    requires bag in keys
    ensures bag in ApplyPatch(keys, data) && keys[bag].Keys <= ApplyPatch(keys, data)[bag].Keys
  {
    if data != [] {
      PatchNeverRemoves(keys, data[..|data| - 1], bag);
    }
  }

  /** `keys[bag] = keys[bag] || {}` followed by `Object.assign(keys[bag], payload)` is MergeEntry. */
  lemma MergeEntrySteps(keys: Keys, created: Keys, t: string, m: map<string, Value>, payload: map<string, Value>)
    requires created == if BagOf(t) in keys then keys else keys[BagOf(t) := map[]]
    requires payload == if IsRawCategory(t) then m else map id | id in m :: AuthCodec.ToBufferDeep(m[id])
    ensures BagOf(t) in created
    ensures created[BagOf(t) := created[BagOf(t)] + payload] == MergeEntry(keys, t, m)
  {
    assert payload == map id | id in m :: Normalise(t, m[id]);
  }

  lemma ApplyPatchPrefix(keys: Keys, data: Patch, i: nat)
    requires i < |data|
    ensures ApplyPatch(keys, data[..i + 1]) == MergeEntry(ApplyPatch(keys, data[..i]), data[i].0, data[i].1)
  {
    assert data[..i + 1][..i] == data[..i];
  }

  /** The keys of a JavaScript object are distinct. */
  predicate DistinctCategories(data: Patch) {
    forall i, j :: 0 <= i < j < |data| ==> data[i].0 != data[j].0
  }

  /** A bag no entry of the patch maps to is left exactly as it was. */
  lemma {:induction false} PatchFrame(keys: Keys, data: Patch, bag: string)
    requires forall i :: 0 <= i < |data| ==> BagOf(data[i].0) != bag
    ensures bag in ApplyPatch(keys, data) <==> bag in keys
    ensures bag in keys ==> ApplyPatch(keys, data)[bag] == keys[bag]
  {
    if data != [] {
      PatchFrame(keys, data[..|data| - 1], bag);
    }
  }

  /**
   * The last entry that writes an id into a bag decides its value: the patched
   * value itself, whatever the category, since normalisation only copies.
   */
  lemma {:induction false} PatchOverwrites(keys: Keys, data: Patch, i: nat, id: string)
    requires i < |data| && id in data[i].1
    requires forall j :: i < j < |data| && BagOf(data[j].0) == BagOf(data[i].0) ==> id !in data[j].1
    ensures var bag := BagOf(data[i].0);
            bag in ApplyPatch(keys, data) && id in ApplyPatch(keys, data)[bag]
            && ApplyPatch(keys, data)[bag][id] == data[i].1[id]
  {
    var n := |data| - 1;
    var prefix := data[..n];
    if i < n {
      assert prefix[i] == data[i];
      PatchOverwrites(keys, prefix, i, id);
      MergeEntryKeeps(ApplyPatch(keys, prefix), data[n].0, data[n].1, BagOf(data[i].0), id);
    } else {
      MergeEntryWrites(ApplyPatch(keys, prefix), data[n].0, data[n].1, id);
    }
  }

  /** A merge whose payload does not write an id into a bag leaves that entry as it was. */
  lemma MergeEntryKeeps(keys: Keys, t: string, payload: map<string, Value>, bag: string, id: string)
    requires bag in keys && id in keys[bag]
    requires BagOf(t) == bag ==> id !in payload
    ensures bag in MergeEntry(keys, t, payload) && id in MergeEntry(keys, t, payload)[bag]
    ensures MergeEntry(keys, t, payload)[bag][id] == keys[bag][id]
  {
  }

  /** A merge stores the payload's value for every id it carries, whatever the category. */
  lemma MergeEntryWrites(keys: Keys, t: string, payload: map<string, Value>, id: string)
    requires id in payload
    ensures id in MergeEntry(keys, t, payload)[BagOf(t)]
    ensures MergeEntry(keys, t, payload)[BagOf(t)][id] == payload[id]
  {
  }

  /**
   * A patch naming known categories, each once, reaches distinct bags: every
   * patched id holds exactly its patched value afterwards.
   */
  lemma PatchKnownCategories(keys: Keys, data: Patch, i: nat, id: string)
    requires DistinctCategories(data)
    requires forall j :: 0 <= j < |data| ==> IsKnownCategory(data[j].0)
    requires i < |data| && id in data[i].1
    ensures var bag := BagOf(data[i].0);
            bag in ApplyPatch(keys, data) && id in ApplyPatch(keys, data)[bag]
            && ApplyPatch(keys, data)[bag][id] == data[i].1[id]
  {
    forall j | i < j < |data| ensures BagOf(data[j].0) != BagOf(data[i].0) {
      BagOfInjective(data[j].0, data[i].0);
    }
    PatchOverwrites(keys, data, i, id);
  }

  /** An id no entry writes into a bag keeps its presence and value. */
  lemma {:induction false} PatchKeepsOthers(keys: Keys, data: Patch, bag: string, id: string)
    requires forall j :: 0 <= j < |data| && BagOf(data[j].0) == bag ==> id !in data[j].1
    ensures var r := ApplyPatch(keys, data);
            (bag in r && id in r[bag]) <==> (bag in keys && id in keys[bag])
    ensures var r := ApplyPatch(keys, data);
            bag in keys && id in keys[bag] ==> r[bag][id] == keys[bag][id]
  {
    if data != [] {
      PatchKeepsOthers(keys, data[..|data| - 1], bag, id);
    }
  }

  /** A stored session, once parsed: credentials and key bags. */
  datatype Loaded = Loaded(creds: Value, keys: Keys)

  /** `JSON.parse` throws a SyntaxError on bad text, and `parsed.creds` a TypeError on `null`. */
  datatype LoadError = SyntaxError | TypeError

  /** `parsed.keys || {}`, read as key bags; a bag that is not an object reads as empty. */
  function KeysOf(v: Value): (r: Keys)
    ensures !Truthy(v) ==> r == map[]
    ensures v.Obj? ==> r.Keys == v.fields.Keys
    ensures v.Obj? ==> forall b :: b in v.fields && v.fields[b].Obj? ==> r[b] == v.fields[b].fields
    ensures v.Obj? ==> forall b :: b in v.fields && !v.fields[b].Obj? ==> r[b] == map[]
  {
    match v
    case Obj(bags) => map b | b in bags :: if bags[b].Obj? then bags[b].fields else map[]
    case _ => map[]
  }

  /** A property read `v.name` on a value that is not null or undefined. */
  function Property(v: Value, name: string): Value {
    if v.Obj? && name in v.fields then v.fields[name] else Undefined
  }

  /**
   * Loading in `authState`: `session` is the stored text, `parsed` what
   * `JSON.parse` makes of it before the reviver runs (None when the text is not
   * JSON), and `initCreds` the credentials `initAuthCreds()` would return.
   */
  function Load(session: string, parsed: Option<Value>, initCreds: Value): (r: Result<Loaded, LoadError>)
    ensures session == "" ==> r == Ok(Loaded(initCreds, map[]))
    ensures session != "" && parsed.None? ==> r == Err(SyntaxError)
    ensures r == Err(TypeError) <==>
              session != "" && parsed.Some? && AuthCodec.ReviveDeep(parsed.value) in {Null, Undefined}
    ensures session != "" && r.Ok? ==>
              var tree := AuthCodec.ReviveDeep(parsed.value);
              r.value.creds == Property(tree, "creds") && AuthCodec.NoTags(r.value.creds)
    ensures session != "" && parsed.Some? && AuthCodec.ReviveDeep(parsed.value) !in {Null, Undefined} ==>
              var k := Property(AuthCodec.ReviveDeep(parsed.value), "keys");
              r.Ok? && r.value.keys == if Truthy(k) then KeysOf(k) else map[]
  {
    if session == "" then Ok(Loaded(initCreds, map[]))
    else match parsed
      case None => Err(SyntaxError)
      case Some(p) =>
        var tree := AuthCodec.ReviveDeep(p);
        if tree == Null || tree == Undefined then Err(TypeError)
        else
          var creds := AuthCodec.ToBufferDeep(Property(tree, "creds"));
          var keys := Property(tree, "keys");
          AuthCodec.ToBufferDeepIsCopy(Property(tree, "creds"));
          AuthCodec.ReviveDeepNoTags(p);
          Ok(Loaded(creds, if Truthy(keys) then KeysOf(keys) else map[]))
  }

  /** What `saveState` hands to `JSON.stringify`: the credentials and key bags of the moment. */
  datatype Snapshot = Snapshot(creds: Value, keys: Keys)

  /**
   * The state `authState` closes over: `creds`, `keys`, and the `saveState`
   * calls made so far. `saveState` catches and logs its own failures, so a
   * call never fails from the caller's point of view.
   */
  class KeyStore {
    var creds: Value
    var keys: Keys
    var saves: seq<Snapshot>

    constructor (loaded: Loaded)
      ensures creds == loaded.creds && keys == loaded.keys && saves == []
    {
      creds := loaded.creds;
      keys := loaded.keys;
      saves := [];
    }

    /** `state.creds`: `toBufferDeep(creds)`, which is the credentials unchanged. */
    function ExposedCreds(): (r: Value)
      reads this
      ensures r == creds
    {
      AuthCodec.ToBufferDeepIsCopy(creds);
      AuthCodec.ToBufferDeep(creds)
    }

    /**
     * `rawKeyStore.get`: the requested ids whose stored value is not
     * `undefined` (a stored `null` is returned), each with its stored value.
     */
    function Get(t: string, ids: seq<string>): (r: map<string, Value>)
      reads this
      ensures forall id :: id in r <==> id in ids && Present(keys, BagOf(t), id)
      ensures forall id :: id in r ==> Present(keys, BagOf(t), id) && r[id] == keys[BagOf(t)][id]
    {
      var r := GetFrom(keys, t, ids, map[]);
      forall id | id in r ensures Present(keys, BagOf(t), id) && r[id] == keys[BagOf(t)][id] {
        AuthCodec.ToBufferDeepIsCopy(keys[BagOf(t)][id]);
      }
      r
    }

    /** `rawKeyStore.set`: merge every category's payload into its bag, then save once. */
    method Set(data: Patch)
      modifies this
      ensures keys == ApplyPatch(old(keys), data)
      ensures creds == old(creds)
      ensures saves == old(saves) + [Snapshot(creds, keys)]
    {
      var bags := keys;
      for i := 0 to |data|
        invariant bags == ApplyPatch(old(keys), data[..i])
        invariant keys == old(keys) && creds == old(creds) && saves == old(saves)
      {
        var t := data[i].0;
        var bag := BagOf(t);
        if bag !in bags {
          bags := bags[bag := map[]];
        }
        var payload := if IsRawCategory(t) then data[i].1
                       else map id | id in data[i].1 :: AuthCodec.ToBufferDeep(data[i].1[id]);
        MergeEntrySteps(ApplyPatch(old(keys), data[..i]), bags, t, data[i].1, payload);
        bags := bags[bag := bags[bag] + payload];
        ApplyPatchPrefix(old(keys), data, i);
      }
      assert data[..|data|] == data;
      keys := bags;
      saves := saves + [Snapshot(creds, keys)];
    }
  }
}
