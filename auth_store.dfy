/** The account store (src/lib/auth-store.ts): the two signed-in accounts
    and the current step of the flow, each action overwriting one part;
    and the session-storage helper that keeps each role's tokens under the
    key `<role>_tokens`. */
module AuthStore {
  import opened Wrappers
  import opened SpotifyTypes

  datatype Step = Landing | ConnectSource | ConnectDestination | Verify | Select | Transfer | Complete

  datatype AccountData = AccountData(tokens: Option<AuthTokens>, user: Option<SpotifyUser>, isAuthenticated: bool)

  const InitialAccountData: AccountData := AccountData(None, None, false)

  /** An account is authenticated exactly when its tokens and its user are
      both known. */
  predicate Consistent(a: AccountData) {
    a.isAuthenticated <==> a.tokens.Some? && a.user.Some?
  }

  class AuthState {
    var sourceAccount: AccountData
    var destinationAccount: AccountData
    var currentStep: Step

    ghost predicate Valid()
      reads this
    {
      Consistent(sourceAccount) && Consistent(destinationAccount)
    }

    constructor ()
      ensures sourceAccount == InitialAccountData && destinationAccount == InitialAccountData
      ensures currentStep == Landing
      ensures Valid()
    {
      sourceAccount := InitialAccountData;
      destinationAccount := InitialAccountData;
      currentStep := Landing;
    }

    method SetSourceAccount(tokens: AuthTokens, user: SpotifyUser)
      requires Valid()
      modifies this`sourceAccount
      ensures Valid()
      ensures sourceAccount == AccountData(Some(tokens), Some(user), true)
      ensures destinationAccount == old(destinationAccount) && currentStep == old(currentStep)
    {
      sourceAccount := AccountData(Some(tokens), Some(user), true);
    }

    method SetDestinationAccount(tokens: AuthTokens, user: SpotifyUser)
      requires Valid()
      modifies this`destinationAccount
      ensures Valid()
      ensures destinationAccount == AccountData(Some(tokens), Some(user), true)
      ensures sourceAccount == old(sourceAccount) && currentStep == old(currentStep)
    {
      destinationAccount := AccountData(Some(tokens), Some(user), true);
    }

    method ClearSourceAccount()
      requires Valid()
      modifies this`sourceAccount
      ensures Valid()
      ensures sourceAccount == InitialAccountData && !sourceAccount.isAuthenticated
      ensures destinationAccount == old(destinationAccount) && currentStep == old(currentStep)
    {
      sourceAccount := InitialAccountData;
    }

    method ClearDestinationAccount()
      requires Valid()
      modifies this`destinationAccount
      ensures Valid()
      ensures destinationAccount == InitialAccountData && !destinationAccount.isAuthenticated
      ensures sourceAccount == old(sourceAccount) && currentStep == old(currentStep)
    {
      destinationAccount := InitialAccountData;
    }

    method SetCurrentStep(step: Step)
      modifies this`currentStep
      ensures currentStep == step
      ensures sourceAccount == old(sourceAccount) && destinationAccount == old(destinationAccount)
    {
      currentStep := step;
    }

    method Reset()
      modifies this
      ensures Valid()
      ensures sourceAccount == InitialAccountData && destinationAccount == InitialAccountData
      ensures currentStep == Landing
    {
      sourceAccount := InitialAccountData;
      destinationAccount := InitialAccountData;
      currentStep := Landing;
    }
  }

  datatype Role = Source | Destination {
    function Other(): Role {
      if Source? then Destination else Source
    }
  }

  function RoleName(role: Role): string {
    match role
    case Source => "source"
    case Destination => "destination"
  }

  /** The storage key of a role's tokens. */
  function TokenKey(role: Role): (key: string)
    ensures role.Source? ==> key == "source_tokens"
    ensures role.Destination? ==> key == "destination_tokens"
  {
    RoleName(role) + "_tokens"
  }

  /** The two roles never share a storage key. */
  lemma TokenKeysDistinct(role: Role)
    ensures TokenKey(role) != TokenKey(role.Other())
  {
    assert TokenKey(role)[0] != TokenKey(role.Other())[0];
  }

  /** sessionStorageHelper over the browser's session storage. Outside a
      browser (`hasWindow` false) every helper does nothing and reads give
      null. Stored values are the tokens themselves; their JSON text is not
      modelled. */
  class TokenStorage {
    const hasWindow: bool
    var items: map<string, AuthTokens>

    constructor (hasWindow: bool, items: map<string, AuthTokens>)
      ensures this.hasWindow == hasWindow && this.items == items
    {
      this.hasWindow := hasWindow;
      this.items := items;
    }

    /** getTokens: the tokens stored for `role`, or null. */
    function GetTokens(role: Role): (r: Option<AuthTokens>)
      reads this
      ensures !hasWindow ==> r == None
      ensures hasWindow && role.Source? ==> r == if "source_tokens" in items then Some(items["source_tokens"]) else None
      ensures hasWindow && role.Destination? ==> r == if "destination_tokens" in items then Some(items["destination_tokens"]) else None
    {
      if hasWindow && TokenKey(role) in items then Some(items[TokenKey(role)]) else None
    }

    method SetTokens(role: Role, tokens: AuthTokens)
      modifies this
      ensures items == if hasWindow then old(items)[TokenKey(role) := tokens] else old(items)
      ensures hasWindow ==> GetTokens(role) == Some(tokens)
      ensures GetTokens(role.Other()) == old(GetTokens(role.Other()))
    {
      if hasWindow {
        items := items[TokenKey(role) := tokens];
      }
    }

    method ClearTokens(role: Role)
      modifies this
      ensures items == if hasWindow then old(items) - {TokenKey(role)} else old(items)
      ensures GetTokens(role) == None
      ensures GetTokens(role.Other()) == old(GetTokens(role.Other()))
    {
      if hasWindow {
        items := items - {TokenKey(role)};
      }
    }

    method ClearAllTokens()
      modifies this
      ensures items == if hasWindow then old(items) - {"source_tokens", "destination_tokens"} else old(items)
      ensures GetTokens(Source) == None && GetTokens(Destination) == None
    {
      if hasWindow {
        items := items - {"source_tokens"};
        items := items - {"destination_tokens"};
      }
    }
  }
}
