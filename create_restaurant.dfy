/**
 * Onboarding of a new client: create the owner's account, then the
 * restaurant row owned by it.
 *
 * The two remote calls are not modelled; their outcomes are parameters. The
 * function returns the calls that were made, in order, together with what
 * the action answers.
 */
module CreateRestaurant {
  import opened Wrappers
  import opened JsText

  /** Every new owner gets this password. */
  const DefaultPassword := "123456"
  const OwnerRole := "owner"
  const UserErrorPrefix := "Error creando usuario: "
  const InsertErrorPrefix := "Usuario creado, pero falló la DB: "

  /** The submitted form: `formData.get(key)` is `null` for a missing field. */
  type Form = map<string, string>

  function Field(form: Form, key: string): Option<string>
  {
    if key in form then Some(form[key]) else None
  }

  /** A value placed in a template literal: `null` prints as "null". */
  function Show(s: Option<string>): (r: string)
    ensures s.None? ==> r == "null"
    ensures s.Some? ==> r == s.value
  {
    if s.Some? then s.value else "null"
  }

  datatype UserRequest = UserRequest(email: Option<string>, password: string, emailConfirm: bool, role: string)

  datatype RestaurantRow = RestaurantRow(name: Option<string>, slug: string, ownerId: string)

  /** A call made to the hosted service. */
  datatype Call = CreateUser(request: UserRequest) | InsertRestaurant(row: RestaurantRow)

  /** What a remote call answered: a value, or an error carrying a message. */
  datatype Remote<T> = Ok(value: T) | Error(message: string)

  /** What the action answers; `Threw` is a rejected promise (a TypeError). */
  datatype ActionResult = Success(message: string) | Failure(error: string) | Threw

  datatype Outcome = Outcome(calls: seq<Call>, result: ActionResult)

  function UserRequestFor(form: Form): (r: UserRequest)
    ensures r.email == Field(form, "email") && r.password == DefaultPassword
    ensures r.emailConfirm && r.role == OwnerRole
  {
    UserRequest(Field(form, "email"), DefaultPassword, true, OwnerRole)
  }

  /** The success answer: who the account is for and the password it got. */
  function SuccessMessage(email: Option<string>): (r: string)
    ensures "Listo. Usuario: " <= r
    ensures |r| >= |DefaultPassword| && r[|r| - |DefaultPassword|..] == DefaultPassword
  {
    "Listo. Usuario: " + Show(email) + " | Pass: " + DefaultPassword
  }

  /**
   * `createRestaurantAndOwner`: `createUser` is what the account creation
   * answered (the new user's id), `insertError` the error the restaurant
   * insert answered, if any.
   */
  function CreateRestaurantAndOwner(form: Form, createUser: Remote<string>, insertError: Option<string>): (o: Outcome)
    ensures |o.calls| >= 1 && o.calls[0] == CreateUser(UserRequestFor(form))
    ensures createUser.Error? ==> o.calls == [CreateUser(UserRequestFor(form))] &&
                                  o.result == Failure(UserErrorPrefix + createUser.message)
    ensures createUser.Ok? && "slug" !in form ==> o.calls == [CreateUser(UserRequestFor(form))] && o.result == Threw
    ensures createUser.Ok? && "slug" in form ==>
      o.calls == [CreateUser(UserRequestFor(form)),
                  InsertRestaurant(RestaurantRow(Field(form, "name"), Slugify(form["slug"]), createUser.value))]
    ensures createUser.Ok? && "slug" in form && insertError.Some? ==>
      o.result == Failure(InsertErrorPrefix + insertError.value)
    ensures createUser.Ok? && "slug" in form && insertError.None? ==>
      o.result == Success(SuccessMessage(Field(form, "email")))
    ensures o.result.Success? ==> createUser.Ok? && |o.calls| == 2
  {
    var request := UserRequestFor(form);
    match createUser
    case Error(message) =>
      Outcome([CreateUser(request)], Failure(UserErrorPrefix + message))
    case Ok(userId) =>
      match Field(form, "slug")
      case None => Outcome([CreateUser(request)], Threw)
      case Some(slug) =>
        var row := RestaurantRow(Field(form, "name"), Slugify(slug), userId);
        var calls := [CreateUser(request), InsertRestaurant(row)];
        match insertError
        case Some(message) => Outcome(calls, Failure(InsertErrorPrefix + message))
        case None => Outcome(calls, Success(SuccessMessage(Field(form, "email"))))
  }

  /** The restaurant row, whenever one is inserted, is owned by the user just created and carries the normalised slug. */
  lemma InsertedRowIsOwned(form: Form, createUser: Remote<string>, insertError: Option<string>, i: nat)
    requires i < |CreateRestaurantAndOwner(form, createUser, insertError).calls|
    requires CreateRestaurantAndOwner(form, createUser, insertError).calls[i].InsertRestaurant?
    ensures createUser.Ok? && "slug" in form
    ensures CreateRestaurantAndOwner(form, createUser, insertError).calls[i].row.ownerId == createUser.value
    ensures CreateRestaurantAndOwner(form, createUser, insertError).calls[i].row.slug == Slugify(form["slug"])
    ensures ' ' !in CreateRestaurantAndOwner(form, createUser, insertError).calls[i].row.slug
  {
    SlugifyShape(form["slug"]);
  }

  /**
   * A failed insert is reported as a failure after the account was created:
   * the account creation is the first call and the failed insert the last.
   * The action makes no call that removes an account, so the model has no
   * undo step to rule out; the account simply stays.
   */
  lemma FailedInsertKeepsUser(form: Form, userId: string, message: string)
    requires "slug" in form
    ensures var o := CreateRestaurantAndOwner(form, Ok(userId), Some(message));
      o.result.Failure? && |o.calls| == 2 && o.calls[0].CreateUser? && o.calls[1].InsertRestaurant? &&
      o.calls[1].row.ownerId == userId
  {
  }

  /** Every failure message starts with the prefix of the step that failed. */
  lemma FailureNamesTheStep(form: Form, createUser: Remote<string>, insertError: Option<string>)
    ensures var r := CreateRestaurantAndOwner(form, createUser, insertError).result;
      r.Failure? ==>
        (createUser.Error? && r.error[..|UserErrorPrefix|] == UserErrorPrefix) ||
        (createUser.Ok? && r.error[..|InsertErrorPrefix|] == InsertErrorPrefix)
  {
    var r := CreateRestaurantAndOwner(form, createUser, insertError).result;
    if r.Failure? {
      if createUser.Error? {
        assert r.error == UserErrorPrefix + createUser.message;
      } else {
        assert r.error == InsertErrorPrefix + insertError.value;
      }
    }
  }

  /** `needle` sits in `hay` starting at position `i`. */
  predicate OccursAt(needle: string, hay: string, i: nat)
  {
    i + |needle| <= |hay| && hay[i..i + |needle|] == needle
  }

  /** The success message tells the submitted email and the default password. */
  lemma SuccessMessageCarriesCredentials(email: string)
    ensures var m := SuccessMessage(Some(email));
      exists i :: OccursAt(email, m, i)
    ensures var m := SuccessMessage(Some(email));
      m[|m| - |DefaultPassword|..] == DefaultPassword
  {
    var m := SuccessMessage(Some(email));
    var prefix := "Listo. Usuario: ";
    assert m == prefix + email + (" | Pass: " + DefaultPassword);
    assert OccursAt(email, m, |prefix|);
  }
}
