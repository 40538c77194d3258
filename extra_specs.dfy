/**
 * The share-type extra-specs controller: the recursive validator of a nested
 * key/value tree of extra specs, and the request checks of `index`, `create`,
 * `update`, `show` and `delete` over the stored extra-specs table.
 */
module ExtraSpecs {
  import opened Wrappers

  /** A value in a request body or in the table: a string, a boolean, a nested dict, or anything else. */
  datatype Value = Str(s: string) | Bool(b: bool) | Dict(entries: map<string, Value>) | Other

  /** The HTTP errors the controller raises. */
  datatype HttpError = BadRequest | NotFound | Forbidden

  /**
   * What the share_types module and common.validate_key_names answer; their
   * code is not part of this model, so the controller takes their answers as given.
   * - requiredSpecsValid: get_valid_required_extra_specs accepts the specs (does not raise);
   * - requiredSpecCheck: is_valid_required_extra_spec, which answers None, True or False;
   * - requiredSpecs: get_required_extra_specs;
   * - keyNamesValid: validate_key_names.
   */
  datatype ShareTypes = ShareTypes(
    requiredSpecsValid: map<string, Value> -> bool,
    requiredSpecCheck: (string, Value) -> Option<bool>,
    requiredSpecs: set<string>,
    keyNamesValid: set<string> -> bool)

  // ---------------------------------------------------------------------------
  // _verify_extra_specs
  // ---------------------------------------------------------------------------

  /** is_valid_string on a string: its length lies in range(1, 256). */
  predicate IsValidString(s: string) {
    1 <= |s| <= 255
  }

  /** is_valid_extra_spec: a valid key, a value that is a valid string or a bool, and no objection from the required-spec check. */
  predicate IsValidExtraSpec(k: string, v: Value, st: ShareTypes) {
    && IsValidString(k)
    && ((v.Str? && IsValidString(v.s)) || v.Bool?)
    && st.requiredSpecCheck(k, v) in {None, Some(true)}
  }

  /** The specs pass _verify_extra_specs: the optional required-spec validation, then every entry. */
  predicate SpecsAccepted(specs: map<string, Value>, verifyAllRequired: bool, st: ShareTypes)
    decreases Dict(specs), 0
  {
    && (verifyAllRequired ==> st.requiredSpecsValid(specs))
    && forall k :: k in specs ==> EntryAccepted(k, specs[k], st)
  }

  /** One entry: a dict under a valid key is verified recursively with the default verify_all_required; anything else must be a valid leaf. */
  predicate EntryAccepted(k: string, v: Value, st: ShareTypes)
    decreases v, 1
  {
    if IsValidString(k) && v.Dict? then SpecsAccepted(v.entries, true, st)
    else IsValidExtraSpec(k, v, st)
  }

  /** _verify_extra_specs: every rejection, at any depth, is a BadRequest. */
  function VerifyExtraSpecs(specs: map<string, Value>, verifyAllRequired: bool, st: ShareTypes): (r: Outcome<HttpError>)
    ensures r == Pass || r == Fail(BadRequest)
  {
    if SpecsAccepted(specs, verifyAllRequired, st) then Pass else Fail(BadRequest)
  }

  /** The shape of a tree the validator accepts: valid keys throughout, every leaf a valid string or a bool. */
  predicate WellFormedSpecs(specs: map<string, Value>)
    decreases Dict(specs), 0
  {
    forall k :: k in specs ==> IsValidString(k) && WellFormedValue(specs[k])
  }

  predicate WellFormedValue(v: Value)
    decreases v, 1
  {
    match v
    case Str(s) => IsValidString(s)
    case Bool(_) => true
    case Dict(m) => WellFormedSpecs(m)
    case Other => false
  }

  /** The share-type checks raise no objection to anything. */
  ghost predicate Permissive(st: ShareTypes) {
    && (forall m :: st.requiredSpecsValid(m))
    && (forall k, v :: st.requiredSpecCheck(k, v) != Some(false))
  }

  /** Whatever the share-type checks say, an accepted tree has valid keys at every depth and only valid leaves. */
  lemma {:induction false} AcceptedSpecsAreWellFormed(specs: map<string, Value>, verifyAllRequired: bool, st: ShareTypes)
    requires SpecsAccepted(specs, verifyAllRequired, st)
    ensures WellFormedSpecs(specs)
    decreases Dict(specs)
  {
    forall k | k in specs
      ensures IsValidString(k) && WellFormedValue(specs[k])
    {
      assert EntryAccepted(k, specs[k], st);
      if IsValidString(k) && specs[k].Dict? {
        AcceptedSpecsAreWellFormed(specs[k].entries, true, st);
      }
    }
  }

  /** When the share-type checks object to nothing, every well-formed tree is accepted. */
  lemma {:induction false} WellFormedSpecsAccepted(specs: map<string, Value>, verifyAllRequired: bool, st: ShareTypes)
    requires Permissive(st) && WellFormedSpecs(specs)
    ensures SpecsAccepted(specs, verifyAllRequired, st)
    decreases Dict(specs)
  {
    forall k | k in specs
      ensures EntryAccepted(k, specs[k], st)
    {
      assert IsValidString(k) && WellFormedValue(specs[k]);
      if specs[k].Dict? {
        WellFormedSpecsAccepted(specs[k].entries, true, st);
      } else {
        var answer := st.requiredSpecCheck(k, specs[k]);
        assert answer != Some(false);
        if answer.Some? {
          assert answer.value;
        }
      }
    }
  }

  /** The dict reached by following `path` through nested dicts, if there is one. */
  function Subtree(specs: map<string, Value>, path: seq<string>): Option<map<string, Value>>
    decreases |path|
  {
    if path == [] then Some(specs)
    else if path[0] in specs && specs[path[0]].Dict? then Subtree(specs[path[0]].entries, path[1..])
    else None
  }

  /**
   * Every nested dict of an accepted tree was verified with verify_all_required
   * set, so the required-spec validation accepted it, whatever the top level asked.
   */
  lemma {:induction false} NestedDictsPassRequiredCheck(
    specs: map<string, Value>, verifyAllRequired: bool, st: ShareTypes, path: seq<string>)
    requires SpecsAccepted(specs, verifyAllRequired, st)
    requires path != [] && Subtree(specs, path).Some?
    ensures st.requiredSpecsValid(Subtree(specs, path).value)
    ensures SpecsAccepted(Subtree(specs, path).value, true, st)
    decreases |path|
  {
    var k := path[0];
    assert k in specs && specs[k].Dict?;
    assert EntryAccepted(k, specs[k], st);
    assert IsValidString(k);
    var inner := specs[k].entries;
    assert SpecsAccepted(inner, true, st);
    if path[1..] != [] {
      NestedDictsPassRequiredCheck(inner, true, st, path[1..]);
    }
  }

  /** Every entry under an invalid key, a dict included, makes the whole request a BadRequest. */
  lemma InvalidKeyRejected(specs: map<string, Value>, verifyAllRequired: bool, st: ShareTypes, k: string)
    requires k in specs && !IsValidString(k)
    ensures VerifyExtraSpecs(specs, verifyAllRequired, st) == Fail(BadRequest)
  {
    assert !EntryAccepted(k, specs[k], st);
  }

  /** A value that is neither a string, a bool nor a dict is rejected at any depth. */
  lemma {:induction false} OtherRejected(specs: map<string, Value>, verifyAllRequired: bool, st: ShareTypes, path: seq<string>, k: string)
    requires Subtree(specs, path).Some? && k in Subtree(specs, path).value
    requires Subtree(specs, path).value[k] == Other
    ensures VerifyExtraSpecs(specs, verifyAllRequired, st) == Fail(BadRequest)
  {
    if SpecsAccepted(specs, verifyAllRequired, st) {
      AcceptedSpecsAreWellFormed(specs, verifyAllRequired, st);
      SubtreeOfWellFormed(specs, path);
      assert false;
    }
  }

  lemma {:induction false} SubtreeOfWellFormed(specs: map<string, Value>, path: seq<string>)
    requires WellFormedSpecs(specs) && Subtree(specs, path).Some?
    ensures WellFormedSpecs(Subtree(specs, path).value)
    decreases |path|
  {
    if path != [] {
      assert WellFormedValue(specs[path[0]]);
      SubtreeOfWellFormed(specs[path[0]].entries, path[1..]);
    }
  }

  /** is_valid_body(body, 'extra_specs'), which lives in the WSGI layer: the entity is present and is a dict. */
  predicate IsValidBody(body: map<string, Value>) {
    "extra_specs" in body && body["extra_specs"].Dict?
  }

  // ---------------------------------------------------------------------------
  // The controller over the extra-specs table
  // ---------------------------------------------------------------------------

  class ExtraSpecsController {
    /** The extra-specs table: every existing share type and its stored specs. */
    var store: map<string, map<string, Value>>

    constructor (store: map<string, map<string, Value>>)
      ensures this.store == store
    {
      this.store := store;
    }

    /** _check_type: the share type exists. */
    predicate TypeExists(typeId: string)
      reads this
    {
      typeId in store
    }

    /** share_type_extra_specs_get: the stored specs of a type, none for an unknown one. */
    function StoredSpecs(typeId: string): map<string, Value>
      reads this
    {
      if typeId in store then store[typeId] else map[]
    }

    /** _get_extra_specs: a copy of the stored specs, wrapped under `extra_specs`. */
    method GetExtraSpecs(typeId: string) returns (r: Value)
      ensures r.Dict? && r.entries.Keys == {"extra_specs"}
      ensures r.entries["extra_specs"] == Dict(StoredSpecs(typeId))
    {
      var extraSpecs := StoredSpecs(typeId);
      var specsDict: map<string, Value> := map[];
      var todo := extraSpecs.Keys;
      while todo != {}
        invariant todo <= extraSpecs.Keys
        invariant specsDict.Keys == extraSpecs.Keys - todo
        invariant forall k :: k in specsDict ==> specsDict[k] == extraSpecs[k]
        decreases todo
      {
        var k :| k in todo;
        specsDict := specsDict[k := extraSpecs[k]];
        todo := todo - {k};
      }
      assert specsDict == extraSpecs;
      r := Dict(map["extra_specs" := Dict(specsDict)]);
    }

    /** index: NotFound for an unknown type, otherwise the stored specs under `extra_specs`. */
    method Index(typeId: string) returns (r: Result<Value, HttpError>)
      ensures r.Err? <==> !TypeExists(typeId)
      ensures r.Err? ==> r.error == NotFound
      ensures r.Ok? ==> r.value == Dict(map["extra_specs" := Dict(store[typeId])])
    {
      if !TypeExists(typeId) {
        return Err(NotFound);
      }
      var specs := GetExtraSpecs(typeId);
      return Ok(specs);
    }

    /** show: exactly `{id: value}` when the key is stored, otherwise NotFound. */
    method Show(typeId: string, id: string) returns (r: Result<Value, HttpError>)
      ensures r.Ok? <==> TypeExists(typeId) && id in store[typeId]
      ensures r.Ok? ==> r.value == Dict(map[id := store[typeId][id]])
      ensures r.Err? ==> r.error == NotFound
    {
      if !TypeExists(typeId) {
        return Err(NotFound);
      }
      var specs := GetExtraSpecs(typeId);
      var stored := specs.entries["extra_specs"].entries;
      if id in stored {
        return Ok(Dict(map[id := stored[id]]));
      } else {
        return Err(NotFound);
      }
    }

    /**
     * create: a body without an `extra_specs` dict is a BadRequest, an unknown
     * type NotFound; specs that fail verification (without the required-spec
     * validation at the top level) or key-name validation are a BadRequest;
     * otherwise the specs are written over the stored ones and the body is returned.
     */
    method Create(typeId: string, body: map<string, Value>, st: ShareTypes) returns (r: Result<map<string, Value>, HttpError>)
      modifies this
      ensures !IsValidBody(body) ==> r == Err(BadRequest)
      ensures IsValidBody(body) && typeId !in old(store) ==> r == Err(NotFound)
      ensures IsValidBody(body) && typeId in old(store) ==>
        var specs := body["extra_specs"].entries;
        && (r.Ok? <==> SpecsAccepted(specs, false, st) && st.keyNamesValid(specs.Keys))
        && (r.Err? ==> r.error == BadRequest)
      ensures r.Ok? ==> (r.value == body
        && store == old(store)[typeId := old(store)[typeId] + body["extra_specs"].entries])
      ensures r.Err? ==> store == old(store)
    {
      if !IsValidBody(body) {
        return Err(BadRequest);
      }
      if !TypeExists(typeId) {
        return Err(NotFound);
      }
      var specs := body["extra_specs"].entries;
      var verified := VerifyExtraSpecs(specs, false, st);
      if verified.Fail? {
        return Err(verified.error);
      }
      var keysChecked := CheckKeyNames(specs.Keys, st);
      if keysChecked.Fail? {
        return Err(keysChecked.error);
      }
      store := store[typeId := store[typeId] + specs];
      return Ok(body);
    }

    /**
     * update: an empty body is a BadRequest before the type is looked up; then
     * an unknown type is NotFound; a body without `id`, or with more than one
     * item, or that fails verification is a BadRequest; otherwise the body is
     * written over the stored specs and returned.
     */
    method Update(typeId: string, id: string, body: map<string, Value>, st: ShareTypes) returns (r: Result<map<string, Value>, HttpError>)
      modifies this
      ensures |body| == 0 ==> r == Err(BadRequest)
      ensures |body| != 0 && typeId !in old(store) ==> r == Err(NotFound)
      ensures |body| != 0 && typeId in old(store) ==>
        && (r.Ok? <==> id in body && |body| == 1 && SpecsAccepted(body, false, st))
        && (r.Err? ==> r.error == BadRequest)
      ensures r.Ok? ==> (r.value == body && body == map[id := body[id]]
        && store == old(store)[typeId := old(store)[typeId][id := body[id]]])
      ensures r.Err? ==> store == old(store)
    {
      if |body| == 0 {
        return Err(BadRequest);
      }
      if !TypeExists(typeId) {
        return Err(NotFound);
      }
      if id !in body {
        return Err(BadRequest);
      }
      if |body| > 1 {
        return Err(BadRequest);
      }
      var verified := VerifyExtraSpecs(body, false, st);
      if verified.Fail? {
        return Err(verified.error);
      }
      SingletonMap(body, id);
      assert store[typeId] + body == store[typeId][id := body[id]];
      store := store[typeId := store[typeId] + body];
      return Ok(body);
    }

    /**
     * delete: an unknown type is NotFound, a required key Forbidden, a key that
     * is not stored NotFound; otherwise exactly that key is removed.
     */
    method Delete(typeId: string, id: string, st: ShareTypes) returns (r: Outcome<HttpError>)
      modifies this
      ensures !(typeId in old(store)) ==> r == Fail(NotFound)
      ensures typeId in old(store) && id in st.requiredSpecs ==> r == Fail(Forbidden)
      ensures typeId in old(store) && id !in st.requiredSpecs && id !in old(store)[typeId] ==> r == Fail(NotFound)
      ensures r == Pass <==> typeId in old(store) && id !in st.requiredSpecs && id in old(store)[typeId]
      ensures r == Pass ==> store == old(store)[typeId := old(store)[typeId] - {id}]
      ensures r.Fail? ==> store == old(store)
    {
      if !TypeExists(typeId) {
        return Fail(NotFound);
      }
      if id in st.requiredSpecs {
        return Fail(Forbidden);
      }
      if id !in store[typeId] {
        return Fail(NotFound);
      }
      store := store[typeId := store[typeId] - {id}];
      return Pass;
    }
  }

  /** _check_key_names: a BadRequest unless validate_key_names accepts the keys. */
  function CheckKeyNames(keys: set<string>, st: ShareTypes): (r: Outcome<HttpError>)
    ensures r == Pass || r == Fail(BadRequest)
    ensures r == Pass <==> st.keyNamesValid(keys)
  {
    if st.keyNamesValid(keys) then Pass else Fail(BadRequest)
  }

  /** A map of one entry is that entry alone. */
  lemma SingletonMap(m: map<string, Value>, k: string)
    requires k in m && |m| == 1
    ensures m == map[k := m[k]]
  {
    assert |m.Keys - {k}| == |m.Keys| - 1 == 0;
    assert m.Keys == {k};
  }

  /** An update that the checks let through is seen by a following show. */
  method UpdateThenShow(c: ExtraSpecsController, typeId: string, id: string, v: Value, st: ShareTypes)
    returns (shown: Result<Value, HttpError>)
    requires typeId in c.store && SpecsAccepted(map[id := v], false, st)
    modifies c
    ensures shown == Ok(Dict(map[id := v]))
  {
    var updated := c.Update(typeId, id, map[id := v], st);
    assert updated.Ok?;
    shown := c.Show(typeId, id);
  }
}
