/**
 * The authentication provider: a simulated session holding the signed-in user and the farm
 * details the user last entered. No credentials are checked and nothing is persisted.
 */
module Auth {
  import opened Wrappers

  datatype User = User(name: string, email: string)

  datatype UserInputData = UserInputData(location: string, landSize: string, landType: string,
                                         landHealth: string, season: string, waterFacility: string,
                                         duration: string)

  /** The name every simulated login signs in as. */
  const DemoName: string := "John Farmer"

  /** `useAuth`: the context value, or the error thrown outside a provider. */
  function UseAuth<C>(context: Option<C>): (r: Result<C, string>)
    ensures r.Ok? <==> context.Some?
    ensures r.Ok? ==> r.value == context.value
    ensures r.Err? ==> r.error == "useAuth must be used within an AuthProvider"
  {
    if context.None? then Err("useAuth must be used within an AuthProvider") else Ok(context.value)
  }

  class AuthProvider {
    var user: Option<User>
    var userInputData: Option<UserInputData>

    /** Nobody signed in and no farm details. */
    constructor ()
      ensures user.None? && userInputData.None?
    {
      user := None;
      userInputData := None;
    }

    /** Signs in as the demo farmer under the given e-mail; the password is ignored and the
      * saved farm details stay. */
    method Login(email: string, password: string)
      modifies this`user
      ensures user == Some(User(DemoName, email))
    {
      user := Some(User(DemoName, email));
    }

    /** Signs in under the given name and e-mail; the password is ignored. */
    method Signup(name: string, email: string, password: string)
      modifies this`user
      ensures user == Some(User(name, email))
    {
      user := Some(User(name, email));
    }

    /** Forgets both the user and the farm details. */
    method Logout()
      modifies this
      ensures user.None? && userInputData.None?
    {
      user := None;
      userInputData := None;
    }

    /** Replaces the farm details; the user stays. */
    method SaveUserInputData(data: UserInputData)
      modifies this`userInputData
      ensures userInputData == Some(data)
    {
      userInputData := Some(data);
    }
  }
}
