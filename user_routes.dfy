/** The `/users` routes (src/modules/user/user.controller.ts): the intake checks of the
    register and update bodies, and which service operation each route hands over to. */
module UserRoutes {
  import opened Results
  import opened Remote
  import opened EmailFormat
  import Users

  const NameAndEmailRequired := "Name and email are required"
  const ConnectionVerified := "Mailchimp connection verified"

  /** The service operation a request is handed to, with its arguments. */
  datatype UserCommand =
    | Register(name: string, email: string)
    | Update(email: string, patch: Users.Patch)
    | ListPlatformMembers

  /** `POST /users`. A missing name or email arrives as the empty string (both are falsy). */
  function RegisterUser(name: string, email: string): (r: Result<UserCommand, string>)
    ensures r.Success? <==> name != "" && email != "" && MatchesEmailRegex(email)
    ensures r.Success? ==> r.value == Register(name, email)
    ensures r.Failure? ==> r.error == if name == "" || email == "" then NameAndEmailRequired else InvalidEmailFormat
  {
    ValidEmailIffRegex(email);
    if name == "" || email == "" then Failure(NameAndEmailRequired)
    else if !IsValidEmail(email) then Failure(InvalidEmailFormat)
    else Success(Register(name, email))
  }

  /** `PUT /users/:email`. Only a non-empty new email in the body is checked against the
      pattern; the email in the path only has to be non-empty. */
  function UpdateUser(pathEmail: string, body: Users.Patch): (r: Result<UserCommand, string>)
    ensures r.Success? <==> pathEmail != "" && (Truthy(body.email) ==> MatchesEmailRegex(body.email.value))
    ensures r.Success? ==> r.value == Update(pathEmail, body)
    ensures r.Failure? ==> r.error == if pathEmail == "" then EmailRequired else InvalidEmailFormat
  {
    if pathEmail == "" then Failure(EmailRequired)
    else if Truthy(body.email) && !IsValidEmail(body.email.value) then
      ValidEmailIffRegex(body.email.value);
      Failure(InvalidEmailFormat)
    else
      (if Truthy(body.email) then ValidEmailIffRegex(body.email.value); Success(Update(pathEmail, body))
       else Success(Update(pathEmail, body)))
  }

  /** `GET /users` lists the platform's members, not the users stored in this process. */
  function ListUsers(): UserCommand {
    ListPlatformMembers
  }

  /** `GET /users/verify-mailchimp`: the fixed message when the connectivity check
      succeeded, its error otherwise. */
  function VerifyConnection(check: Result<(), RemoteError>): (r: Result<string, RemoteError>)
    ensures r.Success? <==> check.Success?
    ensures r.Success? ==> r.value == ConnectionVerified
    ensures r.Failure? ==> r.error == check.error
  {
    match check
    case Success(_) => Success(ConnectionVerified)
    case Failure(e) => Failure(e)
  }

  /** The path email is passed on as given, whatever its form, whenever the body brings no
      new email or an empty one; the name is never checked. */
  lemma PathEmailNotChecked(pathEmail: string, name: Option<string>)
    requires pathEmail != ""
    ensures UpdateUser(pathEmail, Users.Patch(name, None)) == Success(Update(pathEmail, Users.Patch(name, None)))
    ensures UpdateUser(pathEmail, Users.Patch(name, Some(""))) == Success(Update(pathEmail, Users.Patch(name, Some(""))))
    ensures UpdateUser("not an email", Users.Patch(name, None)).Success?
  {
  }

  /** An address the pattern rejects never reaches the service, from either route: only
      the missing-field checks come first. */
  lemma MalformedEmailRejected(name: string, email: string, pathEmail: string)
    requires name != "" && email != "" && pathEmail != ""
    requires !MatchesEmailRegex(email)
    ensures RegisterUser(name, email) == Failure(InvalidEmailFormat)
    ensures UpdateUser(pathEmail, Users.Patch(None, Some(email))) == Failure(InvalidEmailFormat)
  {
  }

  /** A space in the new address is caught by the update route. */
  lemma UpdateRejectsSpace()
    ensures UpdateUser("a@b.c", Users.Patch(None, Some("a b@c.d"))) == Failure(InvalidEmailFormat)
  {
    RejectsSpace();
  }
}
