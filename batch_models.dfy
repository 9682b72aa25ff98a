/** Values exchanged between the Batch account operations and the services
    they call. The SDK types are reduced to the fields the operations use. */
module BatchModels {
  import opened Wrappers

  /** What the operations throw. The first three are `CloudException`s with
      the named resource message; `IndexOutOfRange` is the runtime error of
      reading past the end of an array. */
  datatype BatchError =
    | MissingResGroupName(id: string)
    | ResourceNotFound
    | AccountAlreadyExists
    | IndexOutOfRange

  /** One entry of the resource manager's listing of Batch accounts. */
  datatype Resource = Resource(name: string, id: string)

  /** A Batch account as the Batch management service returns it. */
  datatype AccountResource = AccountResource(
    id: string,
    name: string,
    location: string,
    tags: map<string, string>)

  /** The two keys of a list-keys or regenerate-key response; either may be
      null in the response. */
  datatype AccountKeys = AccountKeys(primary: Option<string>, secondary: Option<string>)

  datatype AccountKeyType = Primary | Secondary

  /** The body of an account create (or update) request. */
  datatype CreateParameters = CreateParameters(
    location: string,
    tags: map<string, string>,
    storageAccountId: Option<string>)

  /** A call sent to the Batch management service. */
  datatype Call =
    | CreateCall(groupArgument: Option<string>, account: string, parameters: CreateParameters)
    | GetCall(group: string, account: string)
    | ListKeysCall(group: string, account: string)
    | RegenerateKeyCall(group: string, account: string, keyName: AccountKeyType)
    | DeleteCall(group: string, account: string)

  /** `string.IsNullOrEmpty`. */
  predicate IsNullOrEmpty(s: Option<string>) {
    s.None? || s.value == ""
  }
}
