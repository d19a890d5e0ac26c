/** The user validators: each runs its checks in order and overwrites a
    single `error` slot whenever one fails, so the failure observed is the
    last one; `{}` (here None) means every check passed. `validator.isEmail`
    is the parameter `isEmail`. */
module UserValidation {
  import opened Common
  import opened Text
  import opened QueryParams

  /** `Object.values(UserRole)`. */
  const Roles: seq<string> := ["ADMIN", "CUSTOMER", "SUPPLIER"]

  const PasswordTooShort := Failure(400, "Password must be greater than equals 8 characters")
  const RepeatMismatch := Failure(400, "Input correct password validation")
  const EmailEmpty := Failure(400, "Email is empty")
  const EmailInvalid := Failure(400, "Input a valid email")
  const NameEmpty := Failure(400, "Name is empty")
  const IdNotNumeric := Failure(400, "User ID must be numeric")

  // ---------------------------------------------------------------------
  // validateGetUsersQuery
  // ---------------------------------------------------------------------

  /** The five checks of the user listing query, in source order; a
      parameter that is blank after trimming is skipped. */
  function GetUsersQueryChecks(userFields: seq<string>, role: string, sortBy: string, sort: string,
                               limit: string, offset: string): seq<Check>
  {
    [ Check(role !in Roles && !IsBlank(role), Failure(400, "Role is invalid")),
      Check(sortBy !in userFields && !IsBlank(sortBy), Failure(400, "User doesn't have " + sortBy + " property")),
      Check(sort !in SortMethods && !IsBlank(sort), Failure(400, "Sort method is invalid")),
      Check(Number(limit).NaN? && !IsBlank(limit), Failure(400, "Limit value must be numeric")),
      Check(Number(offset).NaN? && !IsBlank(offset), Failure(400, "Offset value must be numeric")) ]
  }

  method ValidateGetUsersQuery(userFields: seq<string>, role: string, sortBy: string, sort: string,
                               limit: string, offset: string) returns (error: Option<Failure>)
    ensures error == LastFailing(GetUsersQueryChecks(userFields, role, sortBy, sort, limit, offset))
  {
    error := None;
    if role !in Roles && !IsBlank(role) {
      error := Some(Failure(400, "Role is invalid"));
    }
    if sortBy !in userFields && !IsBlank(sortBy) {
      error := Some(Failure(400, "User doesn't have " + sortBy + " property"));
    }
    if sort !in SortMethods && !IsBlank(sort) {
      error := Some(Failure(400, "Sort method is invalid"));
    }
    if Number(limit).NaN? && !IsBlank(limit) {
      error := Some(Failure(400, "Limit value must be numeric"));
    }
    if Number(offset).NaN? && !IsBlank(offset) {
      error := Some(Failure(400, "Offset value must be numeric"));
    }
    ghost var cs := GetUsersQueryChecks(userFields, role, sortBy, sort, limit, offset);
    LastFailingFive(cs[0], cs[1], cs[2], cs[3], cs[4]);
    assert cs == [cs[0], cs[1], cs[2], cs[3], cs[4]];
  }

  /** The listing query passes exactly when each non-blank parameter is well formed. */
  lemma GetUsersQueryAccepted(userFields: seq<string>, role: string, sortBy: string, sort: string,
                              limit: string, offset: string)
    ensures LastFailing(GetUsersQueryChecks(userFields, role, sortBy, sort, limit, offset)).None? <==>
              && (IsBlank(role) || role in Roles)
              && (IsBlank(sortBy) || sortBy in userFields)
              && (IsBlank(sort) || sort in SortMethods)
              && (IsBlank(limit) || Number(limit).Num?)
              && (IsBlank(offset) || Number(offset).Num?)
  {
    NoneFailsUnrolled(GetUsersQueryChecks(userFields, role, sortBy, sort, limit, offset));
  }

  /** Several bad parameters: the one checked last is reported. */
  lemma {:induction false} GetUsersQueryLastFailureReported(userFields: seq<string>, role: string, sortBy: string,
                                                            sort: string, limit: string, offset: string, k: nat)
    requires k < |GetUsersQueryChecks(userFields, role, sortBy, sort, limit, offset)|
    requires GetUsersQueryChecks(userFields, role, sortBy, sort, limit, offset)[k].fails
    requires NoneFails(GetUsersQueryChecks(userFields, role, sortBy, sort, limit, offset)[k + 1..])
    ensures LastFailing(GetUsersQueryChecks(userFields, role, sortBy, sort, limit, offset))
            == Some(GetUsersQueryChecks(userFields, role, sortBy, sort, limit, offset)[k].failure)
  {
    LastFailingAt(GetUsersQueryChecks(userFields, role, sortBy, sort, limit, offset), k);
  }

  /** Two parameter values the validator cannot tell apart: equal, or both blank. */
  predicate SameUnlessBlank(a: string, b: string) {
    a == b || (IsBlank(a) && IsBlank(b))
  }

  /** A parameter that is blank after trimming never matters: the outcome
      depends only on the parameters that are not blank. */
  lemma BlankQueryParametersIgnored(userFields: seq<string>,
                                    role: string, sortBy: string, sort: string, limit: string, offset: string,
                                    role': string, sortBy': string, sort': string, limit': string, offset': string)
    requires SameUnlessBlank(role, role') && SameUnlessBlank(sortBy, sortBy') && SameUnlessBlank(sort, sort')
    requires SameUnlessBlank(limit, limit') && SameUnlessBlank(offset, offset')
    ensures LastFailing(GetUsersQueryChecks(userFields, role, sortBy, sort, limit, offset))
            == LastFailing(GetUsersQueryChecks(userFields, role', sortBy', sort', limit', offset'))
  {
    var cs := GetUsersQueryChecks(userFields, role, sortBy, sort, limit, offset);
    var ds := GetUsersQueryChecks(userFields, role', sortBy', sort', limit', offset');
    LastFailingFive(cs[0], cs[1], cs[2], cs[3], cs[4]);
    LastFailingFive(ds[0], ds[1], ds[2], ds[3], ds[4]);
    assert cs == [cs[0], cs[1], cs[2], cs[3], cs[4]];
    assert ds == [ds[0], ds[1], ds[2], ds[3], ds[4]];
  }

  // ---------------------------------------------------------------------
  // validateUserCreation
  // ---------------------------------------------------------------------

  function CreationChecks(isEmail: string -> bool, name: string, email: string, password: string,
                          passwordValidation: string): seq<Check>
  {
    [ Check(IsBlank(name), NameEmpty),
      Check(IsBlank(email), EmailEmpty),
      Check(!isEmail(email), EmailInvalid),
      Check(Utf16Length(Trim(password)) < 8, PasswordTooShort),
      Check(passwordValidation != password, RepeatMismatch) ]
  }

  method ValidateUserCreation(isEmail: string -> bool, name: string, email: string, password: string,
                              passwordValidation: string) returns (error: Option<Failure>)
    ensures error == LastFailing(CreationChecks(isEmail, name, email, password, passwordValidation))
  {
    error := None;
    if IsBlank(name) { error := Some(NameEmpty); }
    if IsBlank(email) { error := Some(EmailEmpty); }
    if !isEmail(email) { error := Some(EmailInvalid); }
    if Utf16Length(Trim(password)) < 8 { error := Some(PasswordTooShort); }
    if passwordValidation != password { error := Some(RepeatMismatch); }
    ghost var cs := CreationChecks(isEmail, name, email, password, passwordValidation);
    LastFailingFive(cs[0], cs[1], cs[2], cs[3], cs[4]);
    assert cs == [cs[0], cs[1], cs[2], cs[3], cs[4]];
  }

  lemma CreationAccepted(isEmail: string -> bool, name: string, email: string, password: string,
                         passwordValidation: string)
    ensures LastFailing(CreationChecks(isEmail, name, email, password, passwordValidation)).None? <==>
              !IsBlank(name) && !IsBlank(email) && isEmail(email) && Utf16Length(Trim(password)) >= 8
              && passwordValidation == password
  {
    NoneFailsUnrolled(CreationChecks(isEmail, name, email, password, passwordValidation));
  }

  lemma {:induction false} CreationLastFailureReported(isEmail: string -> bool, name: string, email: string,
                                                       password: string, passwordValidation: string, k: nat)
    requires k < |CreationChecks(isEmail, name, email, password, passwordValidation)|
    requires CreationChecks(isEmail, name, email, password, passwordValidation)[k].fails
    requires NoneFails(CreationChecks(isEmail, name, email, password, passwordValidation)[k + 1..])
    ensures LastFailing(CreationChecks(isEmail, name, email, password, passwordValidation))
            == Some(CreationChecks(isEmail, name, email, password, passwordValidation)[k].failure)
  {
    LastFailingAt(CreationChecks(isEmail, name, email, password, passwordValidation), k);
  }

  /** A repeat password that differs is reported whatever else is wrong. */
  lemma RepeatMismatchAlwaysReported(isEmail: string -> bool, name: string, email: string, password: string,
                                     passwordValidation: string)
    requires passwordValidation != password
    ensures LastFailing(CreationChecks(isEmail, name, email, password, passwordValidation)) == Some(RepeatMismatch)
  {
    LastFailingAt(CreationChecks(isEmail, name, email, password, passwordValidation), 4);
  }

  /** The length rule sees the trimmed password: fewer than 8 characters
      after trimming is reported unless the repeat mismatch overwrites it. */
  lemma CreationShortPasswordRejected(isEmail: string -> bool, name: string, email: string, password: string)
    requires Utf16Length(Trim(password)) < 8
    ensures LastFailing(CreationChecks(isEmail, name, email, password, password)) == Some(PasswordTooShort)
  {
    var cs := CreationChecks(isEmail, name, email, password, password);
    LastFailingFive(cs[0], cs[1], cs[2], cs[3], cs[4]);
    assert cs == [cs[0], cs[1], cs[2], cs[3], cs[4]];
  }

  // ---------------------------------------------------------------------
  // validateUserUpdate
  // ---------------------------------------------------------------------

  /** `id` is the already coerced `Number(req.params.id)`. */
  function UpdateChecks(isEmail: string -> bool, id: JsNumber, name: string, email: string): seq<Check> {
    [ Check(id.NaN?, IdNotNumeric),
      Check(IsBlank(name), NameEmpty),
      Check(IsBlank(email), EmailEmpty),
      Check(!isEmail(email), EmailInvalid) ]
  }

  method ValidateUserUpdate(isEmail: string -> bool, id: JsNumber, name: string, email: string)
    returns (error: Option<Failure>)
    ensures error == LastFailing(UpdateChecks(isEmail, id, name, email))
  {
    error := None;
    if id.NaN? { error := Some(IdNotNumeric); }
    if IsBlank(name) { error := Some(NameEmpty); }
    if IsBlank(email) { error := Some(EmailEmpty); }
    if !isEmail(email) { error := Some(EmailInvalid); }
    ghost var cs := UpdateChecks(isEmail, id, name, email);
    LastFailingFour(cs[0], cs[1], cs[2], cs[3]);
    assert cs == [cs[0], cs[1], cs[2], cs[3]];
  }

  lemma UpdateAccepted(isEmail: string -> bool, id: JsNumber, name: string, email: string)
    ensures LastFailing(UpdateChecks(isEmail, id, name, email)).None? <==>
              id.Num? && !IsBlank(name) && !IsBlank(email) && isEmail(email)
  {
    NoneFailsUnrolled(UpdateChecks(isEmail, id, name, email));
  }

  lemma {:induction false} UpdateLastFailureReported(isEmail: string -> bool, id: JsNumber, name: string,
                                                     email: string, k: nat)
    requires k < |UpdateChecks(isEmail, id, name, email)|
    requires UpdateChecks(isEmail, id, name, email)[k].fails
    requires NoneFails(UpdateChecks(isEmail, id, name, email)[k + 1..])
    ensures LastFailing(UpdateChecks(isEmail, id, name, email)) == Some(UpdateChecks(isEmail, id, name, email)[k].failure)
  {
    LastFailingAt(UpdateChecks(isEmail, id, name, email), k);
  }

  /** The id message, checked first, survives only when every later check passes. */
  lemma IdMessageNeedsValidNameAndEmail(isEmail: string -> bool, id: JsNumber, name: string, email: string)
    ensures LastFailing(UpdateChecks(isEmail, id, name, email)) == Some(IdNotNumeric) <==>
              id.NaN? && !IsBlank(name) && !IsBlank(email) && isEmail(email)
  {
    var cs := UpdateChecks(isEmail, id, name, email);
    LastFailingFour(cs[0], cs[1], cs[2], cs[3]);
    assert cs == [cs[0], cs[1], cs[2], cs[3]];
  }

  // ---------------------------------------------------------------------
  // validateUserLogin
  // ---------------------------------------------------------------------

  function LoginChecks(isEmail: string -> bool, email: string, password: string): seq<Check> {
    [ Check(IsBlank(email), EmailEmpty),
      Check(!isEmail(email), EmailInvalid),
      Check(Utf16Length(Trim(password)) < 8, PasswordTooShort) ]
  }

  method ValidateUserLogin(isEmail: string -> bool, email: string, password: string)
    returns (error: Option<Failure>)
    ensures error == LastFailing(LoginChecks(isEmail, email, password))
  {
    error := None;
    if IsBlank(email) { error := Some(EmailEmpty); }
    if !isEmail(email) { error := Some(EmailInvalid); }
    if Utf16Length(Trim(password)) < 8 { error := Some(PasswordTooShort); }
    ghost var cs := LoginChecks(isEmail, email, password);
    LastFailingThree(cs[0], cs[1], cs[2]);
    assert cs == [cs[0], cs[1], cs[2]];
  }

  lemma LoginAccepted(isEmail: string -> bool, email: string, password: string)
    ensures LastFailing(LoginChecks(isEmail, email, password)).None? <==>
              !IsBlank(email) && isEmail(email) && Utf16Length(Trim(password)) >= 8
  {
    NoneFailsUnrolled(LoginChecks(isEmail, email, password));
  }

  lemma {:induction false} LoginLastFailureReported(isEmail: string -> bool, email: string, password: string, k: nat)
    requires k < |LoginChecks(isEmail, email, password)|
    requires LoginChecks(isEmail, email, password)[k].fails
    requires NoneFails(LoginChecks(isEmail, email, password)[k + 1..])
    ensures LastFailing(LoginChecks(isEmail, email, password)) == Some(LoginChecks(isEmail, email, password)[k].failure)
  {
    LastFailingAt(LoginChecks(isEmail, email, password), k);
  }

  /** Fewer than 8 characters after trimming always ends a login attempt. */
  lemma LoginShortPasswordRejected(isEmail: string -> bool, email: string, password: string)
    requires Utf16Length(Trim(password)) < 8
    ensures LastFailing(LoginChecks(isEmail, email, password)) == Some(PasswordTooShort)
  {
    var cs := LoginChecks(isEmail, email, password);
    assert cs[2].fails && NoneFails(cs[3..]);
    LastFailingAt(cs, 2);
  }

  /** Length is counted in UTF-16 code units, as JavaScript counts it: four
      U+1F511 characters are long enough. */
  lemma AstralPasswordLongEnough(isEmail: string -> bool, email: string)
    requires !IsBlank(email) && isEmail(email)
    ensures LastFailing(LoginChecks(isEmail, email, "\U{1F511}\U{1F511}\U{1F511}\U{1F511}")).None?
  {
    var password := "\U{1F511}\U{1F511}\U{1F511}\U{1F511}";
    assert !IsSpace(password[0]) && !IsSpace(password[3]);
    TrimUnpadded(password);
    AstralCharactersCountTwice();
    LoginAccepted(isEmail, email, password);
  }

  // ---------------------------------------------------------------------
  // "Email is empty" is unobservable
  // ---------------------------------------------------------------------

  /** When `isEmail` rejects a blank email, the invalid-email check that
      follows always overwrites "Email is empty", so no validator reports it. */
  lemma CreationNeverReportsEmailEmpty(isEmail: string -> bool, name: string, email: string, password: string,
                                       passwordValidation: string)
    requires IsBlank(email) ==> !isEmail(email)
    ensures LastFailing(CreationChecks(isEmail, name, email, password, passwordValidation)) != Some(EmailEmpty)
  {
    var cs := CreationChecks(isEmail, name, email, password, passwordValidation);
    LastFailingFive(cs[0], cs[1], cs[2], cs[3], cs[4]);
    assert cs == [cs[0], cs[1], cs[2], cs[3], cs[4]];
  }

  lemma UpdateNeverReportsEmailEmpty(isEmail: string -> bool, id: JsNumber, name: string, email: string)
    requires IsBlank(email) ==> !isEmail(email)
    ensures LastFailing(UpdateChecks(isEmail, id, name, email)) != Some(EmailEmpty)
  {
    var cs := UpdateChecks(isEmail, id, name, email);
    LastFailingFour(cs[0], cs[1], cs[2], cs[3]);
    assert cs == [cs[0], cs[1], cs[2], cs[3]];
  }

  lemma LoginNeverReportsEmailEmpty(isEmail: string -> bool, email: string, password: string)
    requires IsBlank(email) ==> !isEmail(email)
    ensures LastFailing(LoginChecks(isEmail, email, password)) != Some(EmailEmpty)
  {
    var cs := LoginChecks(isEmail, email, password);
    LastFailingThree(cs[0], cs[1], cs[2]);
    assert cs == [cs[0], cs[1], cs[2]];
  }
}
