/** Finding the resource group of a Batch account by listing the Batch
    account resources of the subscription, and the "use the given group,
    else look it up" step that every account operation starts with. */
module AccountGroups {
  import opened Wrappers
  import opened BatchModels
  import opened ResourceIds

  /** What the lookup loop computes over the listed resources: each resource
      named `name`, in order, overwrites the group with the one extracted from
      its id, and the first extraction that fails aborts the scan. */
  function GroupLookup(rs: seq<Resource>, name: string): (r: Result<Option<string>, BatchError>)
    ensures r.Err? ==> r.error.MissingResGroupName?
    decreases |rs|
  {
    if rs == [] then Ok(None)
    else
      var prev := GroupLookup(rs[..|rs| - 1], name);
      var last := rs[|rs| - 1];
      if prev.Err? || last.name != name then prev
      else match ExtractResourceGroupName(last.id)
        case Ok(g) => Ok(Some(g))
        case Err(e) => Err(e)
  }

  /** A resource that has the account's name but no group segment in its id. */
  predicate BadMatch(r: Resource, name: string) {
    r.name == name && !HasGroupSegment(r.id)
  }

  /** `k` is the position of the last resource named `name`. */
  predicate IsLastMatch(rs: seq<Resource>, name: string, k: int) {
    0 <= k < |rs| && rs[k].name == name &&
    forall j :: k < j < |rs| ==> rs[j].name != name
  }

  /** The lookup finds nothing exactly when no listed resource has the name. */
  lemma {:induction false} LookupNoneIff(rs: seq<Resource>, name: string)
    ensures GroupLookup(rs, name) == Ok(None) <==> forall i :: 0 <= i < |rs| ==> rs[i].name != name
    decreases |rs|
  {
    if rs != [] {
      var init := rs[..|rs| - 1];
      LookupNoneIff(init, name);
      assert forall i :: 0 <= i < |init| ==> init[i] == rs[i];
    }
  }

  /** The lookup fails exactly when some resource with the name has an id
      without a group segment. */
  lemma {:induction false} LookupErrIff(rs: seq<Resource>, name: string)
    ensures GroupLookup(rs, name).Err? <==> exists i :: 0 <= i < |rs| && BadMatch(rs[i], name)
    decreases |rs|
  {
    if rs != [] {
      var init := rs[..|rs| - 1];
      LookupErrIff(init, name);
      assert forall i :: 0 <= i < |init| ==> init[i] == rs[i];
    }
  }

  /** When it fails, it reports the id of the first such resource. */
  lemma {:induction false} LookupFirstBadId(rs: seq<Resource>, name: string, j: int)
    requires 0 <= j < |rs| && BadMatch(rs[j], name)
    requires forall i :: 0 <= i < j ==> !BadMatch(rs[i], name)
    ensures GroupLookup(rs, name) == Err(MissingResGroupName(rs[j].id))
    decreases |rs|
  {
    var init := rs[..|rs| - 1];
    assert forall i :: 0 <= i < |init| ==> init[i] == rs[i];
    if j < |rs| - 1 {
      LookupFirstBadId(init, name, j);
    } else {
      LookupErrIff(init, name);
    }
  }

  /** When no resource with the name has a malformed id, the lookup yields
      the group of the LAST resource with the name. */
  lemma {:induction false} LookupLastMatch(rs: seq<Resource>, name: string, k: int)
    requires IsLastMatch(rs, name, k)
    requires forall i :: 0 <= i < |rs| ==> !BadMatch(rs[i], name)
    ensures ExtractResourceGroupName(rs[k].id).Ok?
    ensures GroupLookup(rs, name) == Ok(Some(ExtractResourceGroupName(rs[k].id).value))
    decreases |rs|
  {
    var init := rs[..|rs| - 1];
    assert forall i :: 0 <= i < |init| ==> init[i] == rs[i];
    assert !BadMatch(rs[k], name);
    if k < |rs| - 1 {
      LookupLastMatch(init, name, k);
    } else {
      LookupErrIff(init, name);
    }
  }

  /** Conversely, a group found is that of the last resource with the name. */
  lemma {:induction false} LookupFoundIsLastMatch(rs: seq<Resource>, name: string)
    requires GroupLookup(rs, name).Ok? && GroupLookup(rs, name).value.Some?
    ensures exists k :: IsLastMatch(rs, name, k) && ExtractResourceGroupName(rs[k].id) == Ok(GroupLookup(rs, name).value.value)
    decreases |rs|
  {
    var init := rs[..|rs| - 1];
    assert forall i :: 0 <= i < |init| ==> init[i] == rs[i];
    if rs[|rs| - 1].name == name {
      assert IsLastMatch(rs, name, |rs| - 1);
    } else {
      LookupFoundIsLastMatch(init, name);
      var k :| IsLastMatch(init, name, k) && ExtractResourceGroupName(init[k].id) == Ok(GroupLookup(init, name).value.value);
      assert IsLastMatch(rs, name, k);
    }
  }

  /** Once a prefix of the listing has failed, the whole lookup fails the
      same way. */
  lemma {:induction false} LookupErrPersists(rs: seq<Resource>, name: string, k: int)
    requires 0 <= k <= |rs| && GroupLookup(rs[..k], name).Err?
    ensures GroupLookup(rs, name) == GroupLookup(rs[..k], name)
    decreases |rs|
  {
    if k < |rs| {
      var init := rs[..|rs| - 1];
      assert init[..k] == rs[..k];
      LookupErrPersists(init, name, k);
    } else {
      assert rs[..k] == rs;
    }
  }

  /** `GetGroupForAccountNoThrow`: scans the listing, overwriting the group
      at every resource with the account's name. */
  method GetGroupForAccountNoThrow(resources: seq<Resource>, accountName: string)
    returns (r: Result<Option<string>, BatchError>)
    ensures r == GroupLookup(resources, accountName)
    ensures r == Ok(None) <==> forall i :: 0 <= i < |resources| ==> resources[i].name != accountName
  {
    LookupNoneIff(resources, accountName);
    var groupName: Option<string> := None;
    for i := 0 to |resources|
      invariant GroupLookup(resources[..i], accountName) == Ok(groupName)
    {
      var res := resources[i];
      assert resources[..i + 1][..i] == resources[..i];
      if res.name == accountName {
        var extracted := ExtractResourceGroupName(res.id);
        if extracted.Err? {
          LookupErrPersists(resources, accountName, i + 1);
          return Err(extracted.error);
        }
        groupName := Some(extracted.value);
      }
    }
    assert resources[..|resources|] == resources;
    r := Ok(groupName);
  }

  /* `GetGroupForAccount` and the defaulting step each appear twice below, as
     a function and as a method. The methods follow the source's call chain
     down to the loop in `GetGroupForAccountNoThrow`, and a function cannot
     call a method; the functions state what those methods compute, so that
     the contracts of the account operations can name it. */

  /** What `GetGroupForAccount` returns: not-found exactly when the no-throw
      lookup finds nothing, its group when it finds one, its error when it
      fails. */
  function RequiredGroup(rs: seq<Resource>, name: string): (r: Result<string, BatchError>)
    ensures r == Err(ResourceNotFound) <==> GroupLookup(rs, name) == Ok(None)
    ensures r.Ok? <==> GroupLookup(rs, name).Ok? && GroupLookup(rs, name).value.Some?
    ensures r.Ok? ==> GroupLookup(rs, name) == Ok(Some(r.value))
    ensures GroupLookup(rs, name).Err? ==> r == Err(GroupLookup(rs, name).error)
  {
    match GroupLookup(rs, name)
    case Err(e) => Err(e)
    case Ok(None) => Err(ResourceNotFound)
    case Ok(Some(g)) => Ok(g)
  }

  /** `GetGroupForAccount`: the lookup, with "not found" turned into an error. */
  method GetGroupForAccount(resources: seq<Resource>, accountName: string)
    returns (r: Result<string, BatchError>)
    ensures r == RequiredGroup(resources, accountName)
    ensures r == Err(ResourceNotFound) <==> forall i :: 0 <= i < |resources| ==> resources[i].name != accountName
  {
    var groupName := GetGroupForAccountNoThrow(resources, accountName);
    if groupName.Err? {
      return Err(groupName.error);
    }
    if groupName.value.None? {
      return Err(ResourceNotFound);
    }
    r := Ok(groupName.value.value);
  }

  /** The group an account operation works in: the given one unless it is
      null or empty, the looked-up one otherwise. */
  function EffectiveGroup(rs: seq<Resource>, given: Option<string>, name: string): (r: Result<string, BatchError>)
    ensures !IsNullOrEmpty(given) ==> r == Ok(given.value)
    ensures r.Err? ==> IsNullOrEmpty(given)
    ensures IsNullOrEmpty(given) && GroupLookup(rs, name).Err? ==> r == Err(GroupLookup(rs, name).error)
    ensures IsNullOrEmpty(given) ==>
      (r == Err(ResourceNotFound) <==> forall i :: 0 <= i < |rs| ==> rs[i].name != name)
    ensures IsNullOrEmpty(given) && r.Ok? ==>
      exists k :: IsLastMatch(rs, name, k) && ExtractResourceGroupName(rs[k].id) == Ok(r.value)
  {
    if IsNullOrEmpty(given) then
      LookupNoneIff(rs, name);
      if RequiredGroup(rs, name).Ok? then
        LookupFoundIsLastMatch(rs, name);
        RequiredGroup(rs, name)
      else RequiredGroup(rs, name)
    else Ok(given.value)
  }

  /** The defaulting step shared by the account operations. */
  method ResolveGroup(resources: seq<Resource>, resourceGroupName: Option<string>, accountName: string)
    returns (r: Result<string, BatchError>)
    ensures !IsNullOrEmpty(resourceGroupName) ==> r == Ok(resourceGroupName.value)
    ensures IsNullOrEmpty(resourceGroupName) ==> r == RequiredGroup(resources, accountName)
  {
    if IsNullOrEmpty(resourceGroupName) {
      r := GetGroupForAccount(resources, accountName);
    } else {
      r := Ok(resourceGroupName.value);
    }
  }

  /** Resolving a group that was itself resolved gives it back: passing the
      resolved group on to a second operation does not change it. */
  lemma EffectiveGroupIsStable(rs: seq<Resource>, given: Option<string>, name: string)
    requires EffectiveGroup(rs, given, name).Ok?
    ensures EffectiveGroup(rs, Some(EffectiveGroup(rs, given, name).value), name) == EffectiveGroup(rs, given, name)
  {
  }
}
