/** The administrator sign-in form of client/components/AdminLogin.tsx: a
    submit checks that both fields are filled, calls `login`, and counts
    failed attempts; from the third failure on the form is locked. */
module AdminLogin {
  import opened Common
  import opened UseAdmin

  const FillAllFields := "Veuillez remplir tous les champs"
  const TooManyAttempts := "Trop de tentatives échouées. Veuillez réessayer plus tard."
  const WrongCredentials := "Nom d'utilisateur ou mot de passe incorrect"
  const ConnectionError := "Erreur de connexion. Veuillez réessayer."

  /** Failed attempts from which the form is locked. */
  const MaxAttempts: nat := 3

  class AdminLoginForm {
    var username: string
    var password: string
    var isLoading: bool
    var error: string
    var attempts: nat

    constructor ()
      ensures username == "" && password == "" && !isLoading && error == "" && attempts == 0
    {
      username := "";
      password := "";
      isLoading := false;
      error := "";
      attempts := 0;
    }

    method SetUsername(value: string)
      modifies this`username
      ensures username == value
    {
      username := value;
    }

    method SetPassword(value: string)
      modifies this`password
      ensures password == value
    {
      password := value;
    }

    /** The lockout: the message is shown and the inputs are disabled. */
    predicate Locked()
      reads this
      ensures Locked() <==> attempts >= 3
    {
      attempts >= MaxAttempts
    }

    /** The inputs are enabled. */
    predicate InputsEnabled()
      reads this
      ensures InputsEnabled() <==> !(isLoading || attempts >= 3)
    {
      !isLoading && !Locked()
    }

    /** The submit button is enabled. */
    predicate SubmitEnabled()
      reads this
      ensures SubmitEnabled() <==> !(isLoading || attempts >= 3 || username == "" || password == "")
      ensures SubmitEnabled() ==> InputsEnabled()
    {
      InputsEnabled() && username != "" && password != ""
    }

    /** `handleSubmit`, through to the settled `login` call. Empty fields
        only set an error. Otherwise `login` is called: success calls
        `onSuccess`; a refusal counts one more failed attempt, clears the
        password and shows the lockout message from the third failure on;
        a rejected promise shows the connection error. The attempt counter
        never decreases and the form is not loading afterwards. */
    method HandleSubmit(auth: AdminAuth, now: int, today: CalendarDate, sessionId: string, storageWritable: bool)
      returns (calledOnSuccess: bool)
      requires auth.Valid() && ValidDate(today)
      modifies this`password, this`isLoading, this`error, this`attempts, auth
      ensures auth.Valid()
      ensures attempts >= old(attempts) && username == old(username)
      ensures old(username) == "" || old(password) == "" ==>
        && isLoading == old(isLoading)
        && !calledOnSuccess && error == FillAllFields && attempts == old(attempts) && password == old(password)
        && auth.user == old(auth.user) && auth.stored == old(auth.stored)
      ensures old(username) != "" && old(password) != "" ==>
        var accepted := CheckCredentials(old(username), old(password), today).Some?;
        && !isLoading
        && (accepted ==> auth.user.Some? && auth.user.value.username == old(username) && attempts == old(attempts))
        && (accepted && storageWritable ==> calledOnSuccess && error == "" && password == old(password))
        && (accepted && !storageWritable ==> !calledOnSuccess && error == ConnectionError && password == old(password))
        && (!accepted ==>
              && !calledOnSuccess && attempts == old(attempts) + 1 && password == ""
              && error == (if attempts >= MaxAttempts then TooManyAttempts else WrongCredentials)
              && auth.user == old(auth.user) && auth.stored == old(auth.stored))
    {
      calledOnSuccess := false;
      if username == "" || password == "" {
        error := FillAllFields;
        return;
      }
      isLoading := true;
      error := "";
      ghost var account := CheckCredentials(username, password, today);
      var result := auth.Login(username, password, now, today, sessionId, storageWritable);
      assert account.None? ==> result == Returned(false);
      assert account.Some? && storageWritable ==> result == Returned(true);
      assert account.Some? && !storageWritable ==> result == Threw;
      match result {
        case Returned(success) =>
          if success {
            calledOnSuccess := true;
          } else {
            var newAttempts := attempts + 1;
            attempts := newAttempts;
            if newAttempts >= MaxAttempts {
              error := TooManyAttempts;
            } else {
              error := WrongCredentials;
            }
            password := "";
          }
        case Threw =>
          error := ConnectionError;
      }
      isLoading := false;
    }
  }

  /** Three refused submits in a row lock a fresh form: the lockout message
      is shown and the inputs are disabled. */
  method ThreeFailuresLock(form: AdminLoginForm, auth: AdminAuth, now: int, today: CalendarDate)
    requires auth.Valid() && ValidDate(today) && form.attempts == 0
    requires form.username == "nobody" && !form.isLoading
    modifies form, auth
    ensures form.Locked() && !form.InputsEnabled() && form.error == TooManyAttempts
  {
    var i := 0;
    while i < 3
      invariant 0 <= i <= 3 && form.attempts == i && auth.Valid()
      invariant form.username == "nobody"
      invariant !form.isLoading
      invariant i == 3 ==> form.error == TooManyAttempts
    {
      form.SetPassword("x");
      var _ := form.HandleSubmit(auth, now, today, "", true);
      i := i + 1;
    }
  }
}
