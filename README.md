# Batch account resolution and the OperationStatus codec, in Dafny

This project models two small pieces of the Azure PowerShell cmdlets and
proves properties of them.

1. **The `OperationStatus` string codec** of the Web Sites 2016-09-01 models.
   It covers the five-member enumeration, the serialiser `ToSerializedValue`
   with its nullable overload, and the parser `ParseOperationStatus`
   (`operation_status.dfy`).
2. **The account logic of the Batch client** (`BatchClient.Accounts.cs`):
   - reading the resource group out of a resource id (`resource_ids.dfy`);
   - finding an account's group by listing the subscription's Batch
     resources, and the "use the given group, else look it up" step that the
     account operations share (`account_groups.dfy`);
   - the account operations themselves: create, update, get, list keys,
     regenerate keys, delete (`batch_accounts.dfy`);
   - the paginated account listing (`account_listing.dfy`).

The services these operations call are inputs of the model.

- `resources` is what the resource manager's resource listing returns.
- Each account operation takes the responses its management calls receive.
  It returns the context it builds, or the error it throws, together with
  the management calls it issues, in order (`BatchModels.Call`).
- A C# `CloudException` or runtime failure becomes an `Err` of
  `BatchModels.BatchError`.
- The C# references the operations read or copy and may pass on as null
  become an `Option`: the given group name, the storage id, the tag, the
  next-page link and the keys of a key response. The others are taken as
  non-null (see "## Left out").

`wrappers.dfy` holds `Option` and `Result`. `batch_models.dfy` holds the
shared datatypes.

## Model

| member | source | states |
|---|---|---|
| `OperationStatusCodec.ToSerializedValue` | src/Common/Commands.Common.Websites/Version2016-09-01/Models/OperationStatus.cs:42-58 | A status always serialises to a non-null string, and that string is the `EnumMember` value declared for that member. |
| `OperationStatusCodec.NullableToSerializedValue` | src/Common/Commands.Common.Websites/Version2016-09-01/Models/OperationStatus.cs:37-40 | Null is mapped to null, and only null is. Any other value is handed to the non-nullable serialiser. |
| `OperationStatusCodec.ParseOperationStatus` | src/Common/Commands.Common.Websites/Version2016-09-01/Models/OperationStatus.cs:60-76 | A parsed status is one whose serialisation is exactly the input. The result is null exactly when the input, null included, is none of the five serialised names. |
| `OperationStatusCodec.SerializationInjective` | src/Common/Commands.Common.Websites/Version2016-09-01/Models/OperationStatus.cs:44-56 | Distinct statuses serialise to distinct strings. |
| `OperationStatusCodec.ParseSerializeRoundTrip` | src/Common/Commands.Common.Websites/Version2016-09-01/Models/OperationStatus.cs:42-76 | Parsing a serialised status gives that status back. |
| `OperationStatusCodec.SerializeParseRoundTrip` | src/Common/Commands.Common.Websites/Version2016-09-01/Models/OperationStatus.cs:42-76 | A string that parses is given back by serialising what it parsed to. |
| `OperationStatusCodec.NullableRoundTrip` | src/Common/Commands.Common.Websites/Version2016-09-01/Models/OperationStatus.cs:37-76 | The nullable overload followed by the parser is the identity, null included. |
| `OperationStatusCodec.ParseIsCaseSensitive` | src/Common/Commands.Common.Websites/Version2016-09-01/Models/OperationStatus.cs:62-75 | Names are matched case-sensitively: "succeeded" is rejected while "Succeeded" is accepted. |
| `ResourceIds.Split` | src/ResourceManager/AzureBatch/Commands.Batch/Models/BatchClient.Accounts.cs:302 | `Split('/')` always gives at least one segment, and no segment contains the separator. |
| `ResourceIds.SplitWithoutSeparator` | src/ResourceManager/AzureBatch/Commands.Batch/Models/BatchClient.Accounts.cs:302 | A string without '/' splits into itself alone. |
| `ResourceIds.SplitAppend` | src/ResourceManager/AzureBatch/Commands.Batch/Models/BatchClient.Accounts.cs:302 | Splitting `a + "/" + b` gives the segments of `a` followed by those of `b`. |
| `ResourceIds.SplitLength` | src/ResourceManager/AzureBatch/Commands.Batch/Models/BatchClient.Accounts.cs:302-303 | The number of segments is the number of '/' plus one. |
| `ResourceIds.JoinSplit` | src/ResourceManager/AzureBatch/Commands.Batch/Models/BatchClient.Accounts.cs:302 | Joining the segments with '/' gives back the id, so splitting loses nothing. |
| `ResourceIds.SplitJoin` | src/ResourceManager/AzureBatch/Commands.Batch/Models/BatchClient.Accounts.cs:302 | Splitting a '/'-join of separator-free segments gives back those segments. |
| `ResourceIds.ExtractResourceGroupNameAsWritten` | src/ResourceManager/AzureBatch/Commands.Batch/Models/BatchClient.Accounts.cs:300-309 | As the code is written: fewer than 4 segments raise the missing-group error. Exactly 4 segments fail with an out-of-range read. 5 or more segments give segment 4. |
| `ResourceIds.ExtractResourceGroupName` | src/ResourceManager/AzureBatch/Commands.Batch/Models/BatchClient.Accounts.cs:300-309 | With the intended guard (see Findings), a group comes back exactly when the id has at least 5 segments, and it is segment 4. Otherwise the error is the missing-group error naming the id. |
| `ResourceIds.AsWrittenGuardMissesFourSegments` | src/ResourceManager/AzureBatch/Commands.Batch/Models/BatchClient.Accounts.cs:302-308 | On `/subscriptions/S/resourceGroups` the written guard lets the id through and the read of index 4 fails. The corrected version reports the missing group. |
| `ResourceIds.AsWrittenAgreesElsewhere` | src/ResourceManager/AzureBatch/Commands.Batch/Models/BatchClient.Accounts.cs:302-308 | The written and corrected versions agree on every id that does not have exactly 4 segments. |
| `ResourceIds.ExtractFromArmId` | src/ResourceManager/AzureBatch/Commands.Batch/Models/BatchClient.Accounts.cs:300-309 | For `/subscriptions/S/resourceGroups/G/...` with no '/' in S or G, the group extracted is G. |
| `AccountGroups.GroupLookup` | src/ResourceManager/AzureBatch/Commands.Batch/Models/BatchClient.Accounts.cs:276-286 | With the corrected extractor, the lookup only ever fails with the missing-group error. |
| `AccountGroups.LookupNoneIff` | src/ResourceManager/AzureBatch/Commands.Batch/Models/BatchClient.Accounts.cs:276-286 | The lookup returns null if and only if no listed resource has the account's name. |
| `AccountGroups.LookupErrIff` | src/ResourceManager/AzureBatch/Commands.Batch/Models/BatchClient.Accounts.cs:278-284 | The lookup throws if and only if some resource with the account's name has an id without a group segment. |
| `AccountGroups.LookupFirstBadId` | src/ResourceManager/AzureBatch/Commands.Batch/Models/BatchClient.Accounts.cs:278-284 | With the corrected extractor, when it throws, the error names the id of the first such resource in listing order. |
| `AccountGroups.LookupLastMatch` | src/ResourceManager/AzureBatch/Commands.Batch/Models/BatchClient.Accounts.cs:276-286 | When no resource with the name has a malformed id, the result is the group of the last resource with the name, because each match overwrites the previous one. |
| `AccountGroups.LookupFoundIsLastMatch` | src/ResourceManager/AzureBatch/Commands.Batch/Models/BatchClient.Accounts.cs:276-286 | Conversely, any group found is the one extracted from the last resource that has the name. |
| `AccountGroups.LookupErrPersists` | src/ResourceManager/AzureBatch/Commands.Batch/Models/BatchClient.Accounts.cs:278-284 | A failure part-way through the listing is the failure of the whole lookup. |
| `AccountGroups.GetGroupForAccountNoThrow` | src/ResourceManager/AzureBatch/Commands.Batch/Models/BatchClient.Accounts.cs:269-287 | The overwriting loop computes `GroupLookup`. It returns null exactly when no resource has the name. |
| `AccountGroups.RequiredGroup` | src/ResourceManager/AzureBatch/Commands.Batch/Models/BatchClient.Accounts.cs:289-298 | Not-found is raised exactly when the no-throw lookup returns null. Otherwise the result is the lookup's group, or the lookup's own error. |
| `AccountGroups.GetGroupForAccount` | src/ResourceManager/AzureBatch/Commands.Batch/Models/BatchClient.Accounts.cs:289-298 | The method computes `RequiredGroup`. It raises not-found exactly when no listed resource has the name. |
| `AccountGroups.EffectiveGroup` | src/ResourceManager/AzureBatch/Commands.Batch/Models/BatchClient.Accounts.cs:76-80 | A non-null, non-empty given group is used as is, and only a lookup can fail. When the lookup runs, not-found comes exactly when no listed resource has the name. A lookup error is passed through, and a group found is the one extracted from the last resource with the name. |
| `AccountGroups.ResolveGroup` | src/ResourceManager/AzureBatch/Commands.Batch/Models/BatchClient.Accounts.cs:76-80 | A non-null, non-empty group name is used unchanged. A null or empty one is replaced by the lookup's result or error. The same step appears at lines 111-114, 128-132, 200-204 and 227-231. |
| `AccountGroups.EffectiveGroupIsStable` | src/ResourceManager/AzureBatch/Commands.Batch/Models/BatchClient.Accounts.cs:128-134 | Resolving an already resolved group gives it back. So when `ListKeys` and `RegenerateKeys` pass their group to `GetAccount`, which resolves it again, the group does not change. |
| `BatchAccounts.BatchAccountContext.FromAccountResource` | src/ResourceManager/AzureBatch/Commands.Batch/Models/BatchClient.Accounts.cs:62 | A new context holds the account resource it was converted from and has no keys yet. |
| `BatchAccounts.CopyKeys` | src/ResourceManager/AzureBatch/Commands.Batch/Models/BatchClient.Accounts.cs:136-137 | The context's primary and secondary keys become the response's as they are, null included. Only those two fields are written. |
| `BatchAccounts.CreateAccount` | src/ResourceManager/AzureBatch/Commands.Batch/Models/BatchClient.Accounts.cs:41-64 | If the lookup finds the name, the result is already-exists, and a lookup error propagates; in both cases no create call is issued. Otherwise exactly one create call is issued, with the given group unchanged and the given location, tags and storage id. A call is issued exactly when no listed resource has the name. |
| `BatchAccounts.UpdateAccount` | src/ResourceManager/AzureBatch/Commands.Batch/Models/BatchClient.Accounts.cs:74-100 | In the resolved group, a get and then a create are issued. The create carries the location from the get response and the new tags and storage id. A resolution error issues nothing. |
| `BatchAccounts.GetAccount` | src/ResourceManager/AzureBatch/Commands.Batch/Models/BatchClient.Accounts.cs:108-118 | One get is issued in the resolved group, and the context comes from its response. A resolution error issues nothing. |
| `BatchAccounts.ListKeys` | src/ResourceManager/AzureBatch/Commands.Batch/Models/BatchClient.Accounts.cs:126-140 | A get and then a list-keys call are issued in the resolved group. The context returned holds the get response, and its keys are exactly the key response's primary and secondary keys, null included. |
| `BatchAccounts.RegenerateKeys` | src/ResourceManager/AzureBatch/Commands.Batch/Models/BatchClient.Accounts.cs:198-217 | A get and then a regenerate call for the requested key are issued in the resolved group. The context holds the get response, and its keys are exactly the regenerate response's, null included. |
| `BatchAccounts.DeleteAccount` | src/ResourceManager/AzureBatch/Commands.Batch/Models/BatchClient.Accounts.cs:225-233 | One delete call is issued in the resolved group. A resolution error issues nothing. |
| `AccountListing.Filter` | src/ResourceManager/AzureBatch/Commands.Batch/Models/BatchClient.Accounts.cs:163 | The tag filter keeps an item exactly when the item is on the page and the filter accepts it, and it keeps no more items than the page has. |
| `AccountListing.FilterCounts` | src/ResourceManager/AzureBatch/Commands.Batch/Models/BatchClient.Accounts.cs:163 | Each accepted account is kept as many times as it occurs, and a rejected one is never kept. So the filter neither duplicates nor drops accounts. |
| `AccountListing.FilterAppend` | src/ResourceManager/AzureBatch/Commands.Batch/Models/BatchClient.Accounts.cs:163 | Filtering a concatenation is the concatenation of the filtered parts, so the kept accounts stay in their listing order. |
| `AccountListing.FirstPageAccounts` | src/ResourceManager/AzureBatch/Commands.Batch/Models/BatchClient.Accounts.cs:159-167 | With a null or empty tag, the first page is taken unchanged. With a usable tag, an account is taken exactly when it is on the page and matches the tag. The test at line 160, `tag != null && tag.Count > 0`, is `FiltersByTag`. |
| `AccountListing.FirstPageCounts` | src/ResourceManager/AzureBatch/Commands.Batch/Models/BatchClient.Accounts.cs:159-167 | With a usable tag, each matching account of the first page is taken as often as it occurs there, and no other account is taken. |
| `AccountListing.LastPageRead` | src/ResourceManager/AzureBatch/Commands.Batch/Models/BatchClient.Accounts.cs:174-186 | This is the first page whose next-page link is null: every earlier page has a link. |
| `AccountListing.PageItemsLength` | src/ResourceManager/AzureBatch/Commands.Batch/Models/BatchClient.Accounts.cs:176-186 | Collecting the pages' items keeps them all: the length is the sum of the page sizes. |
| `AccountListing.PageItemsFirst` | src/ResourceManager/AzureBatch/Commands.Batch/Models/BatchClient.Accounts.cs:166-186 | The collected items are the first page's items followed by those of the rest. |
| `AccountListing.PageItemsContains` | src/ResourceManager/AzureBatch/Commands.Batch/Models/BatchClient.Accounts.cs:180-183 | Every item of every page in the range is collected. |
| `AccountListing.AddAll` | src/ResourceManager/AzureBatch/Commands.Batch/Models/BatchClient.Accounts.cs:169-172 | The `foreach` appends the given resources, in order, after the accounts already listed. |
| `AccountListing.FollowNextLinks` | src/ResourceManager/AzureBatch/Commands.Batch/Models/BatchClient.Accounts.cs:174-186 | The loop follows each page's next link until the first page without one. It appends every item of each fetched page, unfiltered. The links it follows are exactly those of the pages before the last one read. |
| `AccountListing.ListAccounts` | src/ResourceManager/AzureBatch/Commands.Batch/Models/BatchClient.Accounts.cs:148-189 | The first request lists the whole subscription when the group is null or empty, and that group otherwise. The output is the first page, filtered only when the tag is non-null and non-empty, then every later page in order, unfiltered. The loop stops at the first null link. The length is the first page's kept count plus the sizes of the later pages read. |
| `AccountListing.UnfilteredListsEveryPage` | src/ResourceManager/AzureBatch/Commands.Batch/Models/BatchClient.Accounts.cs:160-167 | With a null or empty tag, the output is every item of every page read. |
| `AccountListing.LaterPagesUnfiltered` | src/ResourceManager/AzureBatch/Commands.Batch/Models/BatchClient.Accounts.cs:176-186 | Every item of a later page that is read is listed, whether or not the tag filter would accept it. |

## Left out

- Network calls. The Batch management calls (`Account.Create`, `Get`,
  `ListKeys`, `RegenerateKey`, `DeleteWithHttpMessagesAsync`, `List`,
  `ListByResourceGroup`, `ListNext`) and `Resources.List` are not made.
  Their responses are parameters, and the management calls are returned as
  `Call` values. Failures that the services themselves raise are not
  modelled.
- `DeleteAccount` returns a `Task` in the source. The model keeps only the
  group defaulting and the delete call it issues.
- `ListNodeAgentSkus` and `ListNextAccounts`. The first wraps a Batch object
  model client and `PSPagedEnumerable`, which are not part of this model. The
  second only forwards to `ListNext`, whose answer is the next element of
  `pages`.
- `Helpers.CreateTagDictionary` is not part of this model. The operations
  take the tag dictionary it would build, and its validation errors are not
  modelled.
- `Helpers.FilterAccounts` is not part of this model. It is a caller-supplied
  predicate over (tag, account). The model assumes the filter keeps the
  accepted accounts in order, each as often as it occurs, as `Filter` does
  (`FilterCounts`, `FilterAppend`).
- `BatchAccountContext.ConvertAccountResourceToNewAccountContext` is not
  part of this model. A context keeps the account resource it comes from and
  starts with no keys. The listing returns the resources it would convert.
- `ListAccounts` requires the last supplied page to have a null next link.
  If the service never ends its links, the C# loop does not terminate, and
  that case is not modelled.
- `OperationStatusCodec.ToSerializedValue` does not model the `return null`
  after the switch. It is reached only by an integer cast to
  `OperationStatus` that names no member, and such values cannot be
  represented in a datatype.
- Other null references. The account name and location parameters and an
  account resource's id, name and location are never null here. In C#
  they are passed on to the management SDK, whose handling of null is not
  part of this model.
- Null ids and names. A listed resource's id and name are never null here.
  In C#, a null id makes `Split` throw a `NullReferenceException`. Name
  comparison is ordinal and case-sensitive, as C# `==` on strings is.
- The JSON `StringEnumConverter` and `EnumMember` attributes. Only the
  declared values are kept, as `EnumMemberValues`, to state what the
  hand-written serialiser must agree with.
- `ImageCreateOrUpdateMethod.cs` is generated cmdlet glue with no logic of
  its own: `ShouldProcess`, AutoMapper and one SDK call.
- The rest of the model uses the corrected `ExtractResourceGroupName`, so an
  id with exactly four segments raises the missing-group error there.
  `ExtractResourceGroupNameAsWritten` keeps the code's behaviour; see
  Findings.

## Findings

| source | as written | input that shows it | evidently intended | confidence | as-written member | corrected member |
|---|---|---|---|---|---|---|
| src/ResourceManager/AzureBatch/Commands.Batch/Models/BatchClient.Accounts.cs:302-308 | The guard is `idParts.Length < 4`, but the code then reads `idParts[4]`, which needs 5 segments. | `/subscriptions/S/resourceGroups` has 4 segments. It passes the guard, and reading index 4 throws `IndexOutOfRangeException` instead of the `MissingResGroupName` `CloudException`. | The guard should be `idParts.Length < 5`, so every id without a group segment gets the missing-group error. | high; not executed | `ResourceIds.ExtractResourceGroupNameAsWritten`, exhibited by `ResourceIds.AsWrittenGuardMissesFourSegments` | `ResourceIds.ExtractResourceGroupName` |
