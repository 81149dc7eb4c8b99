/** The sign-up form (src/components/auth/RegisterForm.tsx): the two password checks that
    run before the account is created, in their order, and the loading flag around them.
    `signUp` is a remote call; the model records the call it would make. */
module Register {
  import opened Wrappers

  datatype Check = PasswordMismatch | PasswordTooShort | Passed

  const MinPasswordLength: nat := 6

  /** The guards of `handleSubmit`, in order: the confirmation must equal the password,
      then the password needs at least 6 characters. */
  function CheckPasswords(password: string, confirmPassword: string): (c: Check)
    ensures c == PasswordMismatch <==> password != confirmPassword
    ensures c == PasswordTooShort <==> password == confirmPassword && |password| < MinPasswordLength
    ensures c == Passed <==> password == confirmPassword && |password| >= 6
  {
    if password != confirmPassword then PasswordMismatch
    else if |password| < MinPasswordLength then PasswordTooShort
    else Passed
  }

  /** The mismatch is reported even for a short password, and six characters are enough. */
  lemma CheckOrder()
    ensures CheckPasswords("abc", "abd") == PasswordMismatch
    ensures CheckPasswords("abcde", "abcde") == PasswordTooShort
    ensures CheckPasswords("abcdef", "abcdef") == Passed
  {
  }

  /** The arguments of `signUp(email, password, name, organizationName, telefone)`. */
  datatype SignUpCall = SignUpCall(email: string, password: string, name: string, organizationName: string, telefone: string)

  class RegisterForm {
    var name: string
    var organizationName: string
    var telefone: string
    var email: string
    var password: string
    var confirmPassword: string
    var isLoading: bool

    constructor ()
      ensures name == organizationName == telefone == email == password == confirmPassword == ""
      ensures !isLoading
    {
      name, organizationName, telefone, email := "", "", "", "";
      password, confirmPassword := "", "";
      isLoading := false;
    }

    /** `handleSubmit`. `flagWrites` lists the values written to `isLoading`, in order: up
        at the start, down again on each way out. `signUp` is called exactly when both
        checks pass, once, with the fields as they stand. */
    method HandleSubmit() returns (check: Check, call: Option<SignUpCall>, flagWrites: seq<bool>)
      modifies this`isLoading
      ensures check == CheckPasswords(password, confirmPassword)
      ensures call.Some? <==> check == Passed
      ensures call.Some? ==> call.value == SignUpCall(email, password, name, organizationName, telefone)
      ensures flagWrites == [true, false]
      ensures !isLoading
    {
      isLoading := true;
      flagWrites := [true];
      if password != confirmPassword {
        isLoading := false;
        flagWrites := flagWrites + [false];
        return PasswordMismatch, None, flagWrites;
      }
      if |password| < MinPasswordLength {
        isLoading := false;
        flagWrites := flagWrites + [false];
        return PasswordTooShort, None, flagWrites;
      }
      call := Some(SignUpCall(email, password, name, organizationName, telefone));
      check := Passed;
      isLoading := false;
      flagWrites := flagWrites + [false];
    }
  }
}
