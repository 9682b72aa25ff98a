/** The Batch account operations of `BatchClient`. The services they call
    are inputs: `resources` is what the resource manager lists for the
    account lookup, and each operation takes the responses its management
    calls receive. Each returns the context it builds (or the error it
    throws) and the management calls it issues, in order. */
module BatchAccounts {
  import opened Wrappers
  import opened BatchModels
  import opened AccountGroups

  /** The account context handed back to the shell. The conversion from an
      account resource is represented by keeping that resource; the keys are
      filled in only by the key operations. */
  class BatchAccountContext {
    var account: AccountResource
    var primaryAccountKey: Option<string>
    var secondaryAccountKey: Option<string>

    /** `ConvertAccountResourceToNewAccountContext`. */
    constructor FromAccountResource(resource: AccountResource)
      ensures account == resource
      ensures primaryAccountKey == None && secondaryAccountKey == None
    {
      account := resource;
      primaryAccountKey := None;
      secondaryAccountKey := None;
    }
  }

  /** Copies a key response into a context; only the two key fields change. */
  method CopyKeys(context: BatchAccountContext, keys: AccountKeys)
    modifies context`primaryAccountKey, context`secondaryAccountKey
    ensures context.primaryAccountKey == keys.primary
    ensures context.secondaryAccountKey == keys.secondary
    ensures context.account == old(context.account)
  {
    context.primaryAccountKey := keys.primary;
    context.secondaryAccountKey := keys.secondary;
  }

  /** `CreateAccount`: refuses an account name the lookup already finds,
      before anything is created; otherwise creates in the group exactly as
      given (no defaulting here). */
  method CreateAccount(
    resources: seq<Resource>, resourceGroupName: Option<string>, accountName: string,
    location: string, tags: map<string, string>, storageId: Option<string>,
    response: AccountResource)
    returns (r: Result<BatchAccountContext, BatchError>, calls: seq<Call>)
    ensures GroupLookup(resources, accountName).Err? ==>
      r == Err(GroupLookup(resources, accountName).error) && calls == []
    ensures GroupLookup(resources, accountName).Ok? && GroupLookup(resources, accountName).value.Some? ==>
      r == Err(AccountAlreadyExists) && calls == []
    ensures GroupLookup(resources, accountName) == Ok(None) ==>
      && r.Ok? && fresh(r.value)
      && r.value.account == response
      && r.value.primaryAccountKey == None && r.value.secondaryAccountKey == None
      && calls == [CreateCall(resourceGroupName, accountName, CreateParameters(location, tags, storageId))]
    ensures calls != [] <==> forall i :: 0 <= i < |resources| ==> resources[i].name != accountName
  {
    var existing := GetGroupForAccountNoThrow(resources, accountName);
    if existing.Err? {
      return Err(existing.error), [];
    }
    if existing.value.Some? {
      return Err(AccountAlreadyExists), [];
    }
    calls := [CreateCall(resourceGroupName, accountName, CreateParameters(location, tags, storageId))];
    var context := new BatchAccountContext.FromAccountResource(response);
    r := Ok(context);
  }

  /** `UpdateAccount`: in the effective group, reads the account for its
      location and re-creates it with that location and the new tags and
      storage account. */
  method UpdateAccount(
    resources: seq<Resource>, resourceGroupName: Option<string>, accountName: string,
    tags: map<string, string>, storageId: Option<string>,
    getResponse: AccountResource, response: AccountResource)
    returns (r: Result<BatchAccountContext, BatchError>, calls: seq<Call>)
    ensures EffectiveGroup(resources, resourceGroupName, accountName).Err? ==>
      r == Err(EffectiveGroup(resources, resourceGroupName, accountName).error) && calls == []
    ensures EffectiveGroup(resources, resourceGroupName, accountName).Ok? ==>
      var group := EffectiveGroup(resources, resourceGroupName, accountName).value;
      && r.Ok? && fresh(r.value)
      && r.value.account == response
      && r.value.primaryAccountKey == None && r.value.secondaryAccountKey == None
      && calls == [GetCall(group, accountName),
                   CreateCall(Some(group), accountName, CreateParameters(getResponse.location, tags, storageId))]
  {
    var group := ResolveGroup(resources, resourceGroupName, accountName);
    if group.Err? {
      return Err(group.error), [];
    }
    calls := [GetCall(group.value, accountName)];
    calls := calls + [CreateCall(Some(group.value), accountName,
                                 CreateParameters(getResponse.location, tags, storageId))];
    var context := new BatchAccountContext.FromAccountResource(response);
    r := Ok(context);
  }

  /** `GetAccount`: reads the account in the effective group. */
  method GetAccount(
    resources: seq<Resource>, resourceGroupName: Option<string>, accountName: string,
    getResponse: AccountResource)
    returns (r: Result<BatchAccountContext, BatchError>, calls: seq<Call>)
    ensures EffectiveGroup(resources, resourceGroupName, accountName).Err? ==>
      r == Err(EffectiveGroup(resources, resourceGroupName, accountName).error) && calls == []
    ensures EffectiveGroup(resources, resourceGroupName, accountName).Ok? ==>
      && r.Ok? && fresh(r.value)
      && r.value.account == getResponse
      && r.value.primaryAccountKey == None && r.value.secondaryAccountKey == None
      && calls == [GetCall(EffectiveGroup(resources, resourceGroupName, accountName).value, accountName)]
  {
    var group := ResolveGroup(resources, resourceGroupName, accountName);
    if group.Err? {
      return Err(group.error), [];
    }
    calls := [GetCall(group.value, accountName)];
    var context := new BatchAccountContext.FromAccountResource(getResponse);
    r := Ok(context);
  }

  /** `ListKeys`: the account's context with both keys of the key response
      copied in and everything else as read. */
  method ListKeys(
    resources: seq<Resource>, resourceGroupName: Option<string>, accountName: string,
    getResponse: AccountResource, keysResponse: AccountKeys)
    returns (r: Result<BatchAccountContext, BatchError>, calls: seq<Call>)
    ensures EffectiveGroup(resources, resourceGroupName, accountName).Err? ==>
      r == Err(EffectiveGroup(resources, resourceGroupName, accountName).error) && calls == []
    ensures EffectiveGroup(resources, resourceGroupName, accountName).Ok? ==>
      var group := EffectiveGroup(resources, resourceGroupName, accountName).value;
      && r.Ok? && fresh(r.value)
      && r.value.account == getResponse
      && r.value.primaryAccountKey == keysResponse.primary
      && r.value.secondaryAccountKey == keysResponse.secondary
      && calls == [GetCall(group, accountName), ListKeysCall(group, accountName)]
  {
    var group := ResolveGroup(resources, resourceGroupName, accountName);
    if group.Err? {
      return Err(group.error), [];
    }
    EffectiveGroupIsStable(resources, resourceGroupName, accountName);
    var context, getCalls := GetAccount(resources, Some(group.value), accountName, getResponse);
    calls := getCalls + [ListKeysCall(group.value, accountName)];
    CopyKeys(context.value, keysResponse);
    r := context;
  }

  /** `RegenerateKeys`: regenerates the named key and returns the account's
      context with both keys of the response copied in. */
  method RegenerateKeys(
    resources: seq<Resource>, resourceGroupName: Option<string>, accountName: string,
    keyType: AccountKeyType, getResponse: AccountResource, regenResponse: AccountKeys)
    returns (r: Result<BatchAccountContext, BatchError>, calls: seq<Call>)
    ensures EffectiveGroup(resources, resourceGroupName, accountName).Err? ==>
      r == Err(EffectiveGroup(resources, resourceGroupName, accountName).error) && calls == []
    ensures EffectiveGroup(resources, resourceGroupName, accountName).Ok? ==>
      var group := EffectiveGroup(resources, resourceGroupName, accountName).value;
      && r.Ok? && fresh(r.value)
      && r.value.account == getResponse
      && r.value.primaryAccountKey == regenResponse.primary
      && r.value.secondaryAccountKey == regenResponse.secondary
      && calls == [GetCall(group, accountName), RegenerateKeyCall(group, accountName, keyType)]
  {
    var group := ResolveGroup(resources, resourceGroupName, accountName);
    if group.Err? {
      return Err(group.error), [];
    }
    EffectiveGroupIsStable(resources, resourceGroupName, accountName);
    var context, getCalls := GetAccount(resources, Some(group.value), accountName, getResponse);
    calls := getCalls + [RegenerateKeyCall(group.value, accountName, keyType)];
    CopyKeys(context.value, regenResponse);
    r := context;
  }

  /** `DeleteAccount`: deletes the account in the effective group. */
  method DeleteAccount(resources: seq<Resource>, resourceGroupName: Option<string>, accountName: string)
    returns (r: Result<(), BatchError>, calls: seq<Call>)
    ensures EffectiveGroup(resources, resourceGroupName, accountName).Err? ==>
      r == Err(EffectiveGroup(resources, resourceGroupName, accountName).error) && calls == []
    ensures EffectiveGroup(resources, resourceGroupName, accountName).Ok? ==>
      r == Ok(()) && calls == [DeleteCall(EffectiveGroup(resources, resourceGroupName, accountName).value, accountName)]
  {
    var group := ResolveGroup(resources, resourceGroupName, accountName);
    if group.Err? {
      return Err(group.error), [];
    }
    calls := [DeleteCall(group.value, accountName)];
    r := Ok(());
  }
}
