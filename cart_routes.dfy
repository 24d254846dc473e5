/** The `/abandoned-cart` routes (src/modules/abandoned-cart/abandoned-cart.controller.ts):
    the intake check of an event and the test route. */
module CartRoutes {
  import opened Results
  import opened EmailFormat
  import Carts
  import UserRoutes

  const RouteWorking := "Abandoned cart route is working"

  /** `POST /abandoned-cart`: an event with a non-empty email that matches the pattern is
      handed to the service unchanged. A missing email arrives as the empty string. */
  function CreateAbandonedCart(dto: Carts.CartDto): (r: Result<Carts.CartDto, string>)
    ensures r.Success? <==> dto.email != "" && MatchesEmailRegex(dto.email)
    ensures r.Success? ==> r.value == dto
    ensures r.Failure? ==> r.error == if dto.email == "" then EmailRequired else InvalidEmailFormat
  {
    ValidEmailIffRegex(dto.email);
    if dto.email == "" then Failure(EmailRequired)
    else if !IsValidEmail(dto.email) then Failure(InvalidEmailFormat)
    else Success(dto)
  }

  /** `GET /abandoned-cart`. */
  function TestRoute(): string {
    RouteWorking
  }

  /** An event email is accepted exactly when a user registration (with a name) accepts it. */
  lemma SameEmailRuleAsUsers(dto: Carts.CartDto, name: string)
    requires name != ""
    ensures CreateAbandonedCart(dto).Success? <==> UserRoutes.RegisterUser(name, dto.email).Success?
  {
  }
}
