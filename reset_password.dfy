/** The reset-password page (`ResetPassword`): the link's token check and the new-password form. */
module ResetPasswordModel {
  import opened Common

  const MinLength := 10
  const TooShort := "Password must be at least 10 characters"
  const InvalidToken := "Invalid or expired token"

  /** The body of `api.resetPassword`. */
  datatype ResetRequest = ResetRequest(token: Option<string>, password: string)

  /** `err.data?.detail || "Invalid or expired token"` */
  function ResetError(e: ApiError): (m: string)
    ensures m != ""
    ensures Truthy(e.detail) ==> m == e.detail.value
    ensures !Truthy(e.detail) ==> m == InvalidToken
  {
    OrElse(e.detail, InvalidToken)
  }

  /** `!password || password.length < 10` */
  predicate TooShortPassword(password: string)
  {
    password == "" || |password| < MinLength
  }

  class ResetPassword {
    /** `params.get('token')`: the token in the link, if any. */
    const token: Option<string>
    var password: string
    var loading: bool
    var error: string
    var validToken: bool

    /** The page shows only "Invalid or expired reset link" once the token is known to be bad. */
    predicate ShowsInvalidLink()
      reads this
    {
      !validToken
    }

    constructor (token0: Option<string>)
      ensures token == token0
      ensures password == "" && !loading && error == "" && validToken
    {
      token := token0;
      password, loading, error, validToken := "", false, "", true;
    }

    /**
     * The effect on `token`: a missing or empty token is invalid at once; otherwise
     * `api.verifyResetToken` is called and only its failure marks the link invalid.
     * `verify` is that call's outcome; returns whether the call was made.
     */
    method Mount(verify: ApiResult<()>) returns (called: bool)
      modifies this
      ensures called <==> Truthy(token)
      ensures validToken == (old(validToken) && Truthy(token) && verify.Ok?)
      ensures password == old(password) && loading == old(loading) && error == old(error)
    {
      if !Truthy(token) {
        validToken := false;
        return false;
      }
      called := true;
      if verify.Fail? {
        validToken := false;
      }
    }

    method SetPassword(value: string)
      modifies this
      ensures password == value
      ensures loading == old(loading) && error == old(error) && validToken == old(validToken)
    {
      password := value;
    }

    /**
     * `submit`, given the outcome of `api.resetPassword`. Returns the request sent (if any)
     * and the route navigated to (if any).
     */
    method Submit(result: ApiResult<()>) returns (request: Option<ResetRequest>, navigation: Option<string>)
      modifies this
      ensures password == old(password) && validToken == old(validToken)
      ensures if request.Some? then !loading else loading == old(loading)
      ensures TooShortPassword(password) ==> request == None && navigation == None && error == TooShort
      ensures !TooShortPassword(password) ==> request == Some(ResetRequest(token, password))
      ensures !TooShortPassword(password) && result.Ok? ==> navigation == Some("/login") && error == ""
      ensures !TooShortPassword(password) && result.Fail? ==>
                navigation == None && error == ResetError(result.error)
      ensures request.Some? ==> |request.value.password| >= MinLength
    {
      error := "";
      request, navigation := None, None;
      if password == "" || |password| < MinLength {
        error := TooShort;
        return;
      }
      loading := true;
      request := Some(ResetRequest(token, password));
      if result.Ok? {
        navigation := Some("/login");
      } else {
        error := ResetError(result.error);
      }
      loading := false;
    }
  }
}
