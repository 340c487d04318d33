/** User management: the password policy, the permission checkboxes, the
    order of the checks before a user is created or a password reset, and
    the guard against deleting oneself. */
module Users {
  import opened Base
  import opened Text
  import opened Domain
  import opened Access
  import Store

  // ---------------------------------------------------------------------
  // Password policy
  // ---------------------------------------------------------------------

  predicate IsUpper(c: char) { 'A' <= c <= 'Z' }
  predicate IsLower(c: char) { 'a' <= c <= 'z' }

  predicate HasUpper(p: string) { exists i :: 0 <= i < |p| && IsUpper(p[i]) }
  predicate HasLower(p: string) { exists i :: 0 <= i < |p| && IsLower(p[i]) }
  predicate HasDigit(p: string) { exists i :: 0 <= i < |p| && IsDigit(p[i]) }
  /** `/[^A-Za-z0-9]/`: any character but an ASCII letter or digit. */
  predicate HasSymbol(p: string) { exists i :: 0 <= i < |p| && !IsAsciiAlnum(p[i]) }

  datatype Validation = Validation(isValid: bool, message: string)

  const TooShort := "La contraseña debe tener al menos 10 caracteres."
  const NoUpper := "La contraseña debe contener al menos una letra mayúscula."
  const NoLower := "La contraseña debe contener al menos una letra minúscula."
  const NoDigit := "La contraseña debe contener al menos un número."
  const NoSymbol := "La contraseña debe contener al menos un símbolo (ej. !@#$%)."
  const ValidMessage := "Contraseña válida."

  /** The policy as one condition; the length is JavaScript's, in UTF-16
      code units. */
  predicate MeetsPolicy(p: string) {
    Utf16Length(p) >= 10 && HasUpper(p) && HasLower(p) && HasDigit(p) && HasSymbol(p)
  }

  /** `validatePassword`: the checks in order, the first that fails giving
      the message. */
  function ValidatePassword(password: string): (v: Validation)
    ensures v.isValid <==> MeetsPolicy(password)
    ensures v.isValid ==> v.message == ValidMessage
    ensures Utf16Length(password) < 10 ==> v.message == TooShort
    ensures Utf16Length(password) >= 10 && !HasUpper(password) ==> v.message == NoUpper
    ensures Utf16Length(password) >= 10 && HasUpper(password) && !HasLower(password) ==> v.message == NoLower
    ensures Utf16Length(password) >= 10 && HasUpper(password) && HasLower(password) && !HasDigit(password) ==>
              v.message == NoDigit
    ensures Utf16Length(password) >= 10 && HasUpper(password) && HasLower(password) && HasDigit(password) && !HasSymbol(password) ==>
              v.message == NoSymbol
  {
    if Utf16Length(password) < 10 then Validation(false, TooShort)
    else if !HasUpper(password) then Validation(false, NoUpper)
    else if !HasLower(password) then Validation(false, NoLower)
    else if !HasDigit(password) then Validation(false, NoDigit)
    else if !HasSymbol(password) then Validation(false, NoSymbol)
    else Validation(true, ValidMessage)
  }

  /** A rejected password gets one of the five messages, never the
      success text. */
  lemma {:induction false} RejectionMessages(password: string)
    requires !ValidatePassword(password).isValid
    ensures ValidatePassword(password).message in [TooShort, NoUpper, NoLower, NoDigit, NoSymbol]
    ensures ValidatePassword(password).message != ValidMessage
  {
  }

  // ---------------------------------------------------------------------
  // The permission checkboxes
  // ---------------------------------------------------------------------

  function Without(acts: seq<Action>, a: Action): (r: seq<Action>)
    ensures forall x :: x in r <==> x in acts && x != a
    ensures NoDup(acts) ==> NoDup(r)
  {
    if |acts| == 0 then []
    else
      var init := acts[..|acts| - 1];
      var last := acts[|acts| - 1];
      assert acts == init + [last];
      var rest := Without(init, a);
      assert NoDup(acts) ==> last !in rest && NoDup(rest + [last]) by {
        if NoDup(acts) {
          assert forall i :: 0 <= i < |init| ==> init[i] == acts[i];
          assert last !in init;
        }
      }
      rest + (if last != a then [last] else [])
  }

  /** `handlePermissionChange` on the copied map: an action that is there
      is removed, and removing VIEW removes every action; an action that is
      not there is added, and any action but VIEW brings VIEW with it; a
      path whose list becomes empty is deleted. */
  function TogglePermission(prev: Permissions, resource: string, action: Action): Permissions {
    var resourceActions := if resource in prev then prev[resource] else [];
    var next :=
      if action in resourceActions then
        (if action == View then [] else Without(resourceActions, action))
      else
        var added := resourceActions + [action];
        if action != View && View !in added then added + [View] else added;
    if |next| == 0 then prev - {resource} else prev[resource := next]
  }

  /** The checkbox turns its action on or off, turning VIEW off empties
      the path, turning any other action off keeps every other action of
      the path (VIEW included), turning any other action on turns VIEW on,
      and no other path changes. */
  lemma {:induction false} ToggleSpec(prev: Permissions, resource: string, action: Action)
    ensures var r := TogglePermission(prev, resource, action);
      var before := if resource in prev then prev[resource] else [];
      (action in before ==> resource !in r || action !in r[resource]) &&
      (action in before && action == View ==> resource !in r) &&
      (action !in before ==> resource in r && action in r[resource] && View in r[resource]) &&
      (resource in r ==> |r[resource]| > 0) &&
      (resource in r ==> forall x :: x != action && x != View ==> (x in r[resource] <==> x in before)) &&
      (action in before && action != View ==>
         forall x :: x != action ==> (x in before <==> resource in r && x in r[resource])) &&
      (forall p :: p != resource ==> (p in r <==> p in prev) && (p in r ==> r[p] == prev[p]))
  {
  }

  /** What the checkboxes keep true of every path: a listed path has some
      action, VIEW among them, and no action twice. */
  predicate WellFormed(p: Permissions) {
    forall r :: r in p ==> |p[r]| > 0 && View in p[r] && NoDup(p[r])
  }

  lemma {:induction false} NoDupAppend(acts: seq<Action>, a: Action)
    requires NoDup(acts) && a !in acts
    ensures NoDup(acts + [a])
  {
  }

  /** Starting from an empty or well-formed map, the checkboxes never list
      an action twice, never leave an empty list, and never grant an
      action without VIEW. */
  lemma {:induction false} TogglePreservesWellFormed(prev: Permissions, resource: string, action: Action)
    requires WellFormed(prev)
    ensures WellFormed(TogglePermission(prev, resource, action))
  {
    var before := if resource in prev then prev[resource] else [];
    if action !in before {
      NoDupAppend(before, action);
      if action != View && View !in before + [action] {
        NoDupAppend(before + [action], View);
      }
    }
  }

  /** For a non-administrator with well-formed permissions, granting any
      action on a path grants viewing it. */
  lemma {:induction false} GrantImpliesView(u: SessionUser, resource: string, a: Action)
    requires u.role != Admin && u.permissions.Some? && WellFormed(u.permissions.value)
    requires Grants(UsePermissions(Some(u), resource), a)
    ensures UsePermissions(Some(u), resource).canView
  {
  }

  /** The map as the store keeps it: each path's actions by their names. */
  function ActionName(a: Action): string {
    match a
    case View => "view"
    case Create => "create"
    case Edit => "edit"
    case Delete => "delete"
  }

  function ActionValues(acts: seq<Action>): (r: seq<Store.Value>)
    ensures |r| == |acts|
    ensures forall i :: 0 <= i < |acts| ==> r[i] == Store.Str(ActionName(acts[i]))
  {
    if |acts| == 0 then [] else ActionValues(acts[..|acts| - 1]) + [Store.Str(ActionName(acts[|acts| - 1]))]
  }

  function PermissionsValue(p: Permissions): Store.Value {
    Store.Object(map r | r in p :: Store.List(ActionValues(p[r])))
  }

  // ---------------------------------------------------------------------
  // Submitting the forms
  // ---------------------------------------------------------------------

  const UsernameRequired := "El nombre de usuario es requerido."
  const Mismatch := "Las contraseñas no coinciden."

  /** The error the create form shows before any store call, if any:
      blank username, then mismatch, then the policy. */
  function CreateFormError(username: string, password: string, confirmPassword: string): (e: Option<string>)
    ensures Trim(username) == "" ==> e == Some(UsernameRequired)
    ensures Trim(username) != "" && password != confirmPassword ==> e == Some(Mismatch)
    ensures Trim(username) != "" && password == confirmPassword ==>
      (e.None? <==> MeetsPolicy(password)) &&
      (e.Some? ==> e.value == ValidatePassword(password).message)
  {
    if Trim(username) == "" then Some(UsernameRequired)
    else if password != confirmPassword then Some(Mismatch)
    else
      var v := ValidatePassword(password);
      if !v.isValid then Some(v.message) else None
  }

  /** The error the password reset shows before any store call, if any:
      the policy first, then the mismatch. */
  function ResetFormError(password: string, confirmPassword: string): (e: Option<string>)
    ensures !MeetsPolicy(password) ==> e == Some(ValidatePassword(password).message)
    ensures MeetsPolicy(password) ==> (e.None? <==> password == confirmPassword)
    ensures MeetsPolicy(password) && password != confirmPassword ==> e == Some(Mismatch)
  {
    var v := ValidatePassword(password);
    if !v.isValid then Some(v.message)
    else if password != confirmPassword then Some(Mismatch)
    else None
  }

  /** The two orders differ: a mismatched pair of weak passwords is
      reported as a mismatch when creating but as the policy failure when
      resetting. */
  lemma {:induction false} CheckOrdersDiffer(username: string, password: string, confirmPassword: string)
    requires Trim(username) != "" && password != confirmPassword && !MeetsPolicy(password)
    ensures CreateFormError(username, password, confirmPassword) == Some(Mismatch)
    ensures ResetFormError(password, confirmPassword) == Some(ValidatePassword(password).message)
    ensures ResetFormError(password, confirmPassword) != Some(Mismatch)
  {
    RejectionMessages(password);
  }

  /** `UserFormModal.handleSubmit`: editing replaces the permissions;
      creating runs the checks first and then asks the store, a store
      rejection becoming the shown error (`err.message`, non-empty). */
  method SubmitUserForm(api: Store.ApiService, userToEdit: Option<string>, username: string,
                        password: string, confirmPassword: string, permissions: Permissions,
                        freshId: string, createdAt: string) returns (error: Option<string>)
    modifies api
    ensures userToEdit.None? && CreateFormError(username, password, confirmPassword).Some? ==>
      error == CreateFormError(username, password, confirmPassword) && api.users == old(api.users)
    ensures userToEdit.None? && CreateFormError(username, password, confirmPassword).None? ==>
      if Store.UsernameTaken(old(api.users), username) then
        error == Some("El nombre de usuario ya existe.") && api.users == old(api.users)
      else
        error.None? &&
        api.users == old(api.users) +
          [Store.NewUser(freshId, username, Some(password), Some(PermissionsValue(permissions)), createdAt)]
    ensures userToEdit.Some? ==>
      var data := map["permissions" := PermissionsValue(permissions)];
      match Store.Updated(old(api.users), userToEdit.value, data)
      case None => error == Some("User not found") && api.users == old(api.users)
      case Some(items) => error.None? && api.users == items
    ensures api.drivers == old(api.drivers) && api.trucks == old(api.trucks) && api.trailers == old(api.trailers)
    ensures api.trips == old(api.trips) && api.dmtis == old(api.dmtis) && api.clients == old(api.clients)
    ensures api.lastServiceNumber == old(api.lastServiceNumber)
  {
    if userToEdit.None? {
      var formError := CreateFormError(username, password, confirmPassword);
      if formError.Some? {
        return formError;
      }
    }
    var result;
    if userToEdit.Some? {
      var r := api.UpdateUser(userToEdit.value, Some(PermissionsValue(permissions)));
      result := if r.Done? then None else Some(r.message);
    } else {
      var r := api.CreateUser(username, Some(password), Some(PermissionsValue(permissions)), freshId, createdAt);
      result := if r.Done? then None else Some(r.message);
    }
    error := if result.Some? && result.value == "" then Some("Ocurrió un error.") else result;
  }

  /** `PasswordResetModal.handleSubmit`. */
  method SubmitPasswordReset(api: Store.ApiService, userId: string, password: string, confirmPassword: string)
    returns (error: Option<string>)
    modifies api
    ensures ResetFormError(password, confirmPassword).Some? ==>
      error == ResetFormError(password, confirmPassword) && api.users == old(api.users)
    ensures ResetFormError(password, confirmPassword).None? ==>
      match Store.FindIndex(old(api.users), userId)
      case None => error == Some("No se pudo cambiar la contraseña.") && api.users == old(api.users)
      case Some(i) =>
        error.None? && api.users == old(api.users)[i := old(api.users)[i]["password" := Store.Str(Store.FakeHash(password))]]
    ensures api.drivers == old(api.drivers) && api.trucks == old(api.trucks) && api.trailers == old(api.trailers)
    ensures api.trips == old(api.trips) && api.dmtis == old(api.dmtis) && api.clients == old(api.clients)
    ensures api.lastServiceNumber == old(api.lastServiceNumber)
  {
    error := ResetFormError(password, confirmPassword);
    if error.Some? {
      return;
    }
    var r := api.UpdateUserPassword(userId, password);
    if r.Rejected? {
      error := Some("No se pudo cambiar la contraseña.");
    }
  }

  const SelfDelete := "No puedes borrar tu propio usuario."

  /** `UserManager.handleDelete`: never the signed-in user; otherwise,
      once confirmed, the user is removed from the store. */
  method HandleDelete(api: Store.ApiService, userId: string, currentUser: Option<SessionUser>, confirmed: bool)
    returns (alert: Option<string>)
    requires api.Valid()
    modifies api
    ensures currentUser.Some? && currentUser.value.id == userId ==>
      alert == Some(SelfDelete) && api.users == old(api.users)
    ensures !(currentUser.Some? && currentUser.value.id == userId) ==>
      alert.None? && api.users == (if confirmed then Store.Deleted(old(api.users), userId) else old(api.users))
    ensures forall q :: q != Store.Users ==> api.ListOf(q) == old(api.ListOf(q))
    ensures api.lastServiceNumber == old(api.lastServiceNumber)
    ensures api.Valid()
  {
    if currentUser.Some? && userId == currentUser.value.id {
      return Some(SelfDelete);
    }
    alert := None;
    if confirmed {
      api.Delete(Store.Users, userId);
    }
  }
}
