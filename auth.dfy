/** The authentication service (src/lib/auth.ts): the translation of Firebase error codes
    into messages, and the error paths of sign-up, sign-in, sign-out and password reset.
    Firebase Auth and Firestore are external: each call's result is a parameter, and the
    `users` collection is a field of the service. */
module Auth {
  import opened Types

  const KnownCodes: seq<string> := [
    "auth/email-already-in-use", "auth/weak-password", "auth/invalid-email", "auth/user-not-found",
    "auth/wrong-password", "auth/too-many-requests", "auth/network-request-failed", "auth/user-disabled"]

  const KnownMessages: seq<string> := [
    "This email is already registered. Please use a different email or try signing in.",
    "Password should be at least 6 characters long.",
    "Please enter a valid email address.",
    "No account found with this email address.",
    "Incorrect password. Please try again.",
    "Too many failed attempts. Please try again later.",
    "Network error. Please check your internet connection.",
    "This account has been disabled. Please contact support."]

  const DefaultError: string := "An error occurred. Please try again."

  /** `getErrorMessage(error.code)`; an error without a code passes `undefined`. */
  function GetErrorMessage(code: Option<string>): (r: string)
    ensures forall i :: 0 <= i < |KnownCodes| && code == Some(KnownCodes[i]) ==> r == KnownMessages[i]
    ensures code.None? || code.value !in KnownCodes ==> r == DefaultError
  {
    if code.None? then DefaultError
    else
      match code.value
      case "auth/email-already-in-use" => KnownMessages[0]
      case "auth/weak-password" => KnownMessages[1]
      case "auth/invalid-email" => KnownMessages[2]
      case "auth/user-not-found" => KnownMessages[3]
      case "auth/wrong-password" => KnownMessages[4]
      case "auth/too-many-requests" => KnownMessages[5]
      case "auth/network-request-failed" => KnownMessages[6]
      case "auth/user-disabled" => KnownMessages[7]
      case _ => DefaultError
  }

  /** The eight codes get eight different messages, none of them the generic one, so a
      message tells which code it came from. */
  lemma ErrorMessagesDistinct(a: Option<string>, b: Option<string>)
    requires a.Some? && a.value in KnownCodes
    ensures GetErrorMessage(a) != DefaultError
    ensures GetErrorMessage(a) == GetErrorMessage(b) ==> a == b
  {
    var i :| 0 <= i < |KnownCodes| && KnownCodes[i] == a.value;
    if b.Some? && b.value in KnownCodes {
      var j :| 0 <= j < |KnownCodes| && KnownCodes[j] == b.value;
      MessagesDiffer(i, j);
    } else {
      MessagesDiffer(i, i);
    }
  }

  lemma MessagesDiffer(i: int, j: int)
    requires 0 <= i < 8 && 0 <= j < 8
    ensures i != j ==> KnownMessages[i] != KnownMessages[j]
    ensures KnownMessages[i] != DefaultError
  {
    var m := KnownMessages;
    assert |m[0]| == 81 && |m[1]| == 46 && |m[2]| == 35 && |m[3]| == 41;
    assert |m[4]| == 37 && |m[5]| == 49 && |m[6]| == 53 && |m[7]| == 55;
    assert |DefaultError| == 36;
  }

  /** The message `signIn` throws for an account without a user record. */
  const MissingProfile: string := "User data not found. Please contact support."

  /** The catch block of `signIn` translates `error.code`, which the error thrown for a
      missing user record does not have: its own message is replaced by the generic one,
      which does not tell the user to contact support. */
  lemma MissingProfileMessageLost()
    ensures GetErrorMessage(None) == DefaultError
    ensures GetErrorMessage(None) != MissingProfile
  {
    assert |DefaultError| == 36 && |MissingProfile| == 44;
  }

  /** The outcome of one external Firebase call: success, or an error and its code. */
  datatype Step = Done | Failed(code: Option<string>)

  /** What Firebase Auth answers to creating or signing in an account. */
  datatype Credential = Credential(uid: string, email: string) | CredentialError(code: Option<string>)

  /** `signOut`: any failure becomes the fixed sign-out message. */
  function SignOut(step: Step): (r: Outcome<()>)
    ensures step.Done? <==> r.Ok?
    ensures r.Fail? ==> r.message == "Failed to sign out. Please try again."
  {
    if step.Done? then Ok(()) else Fail("Failed to sign out. Please try again.")
  }

  /** `resetPassword`: a failure is rethrown with its translated message. */
  function ResetPassword(step: Step): (r: Outcome<()>)
    ensures step.Done? <==> r.Ok?
    ensures r.Fail? ==> r.message == GetErrorMessage(step.code)
  {
    if step.Done? then Ok(()) else Fail(GetErrorMessage(step.code))
  }

  /** Every failure of sign-up, sign-in and password reset carries a non-empty message. */
  lemma TranslatedMessagesNonEmpty(code: Option<string>)
    ensures GetErrorMessage(code) != ""
  {
    if code.Some? && code.value in KnownCodes {
      var i :| 0 <= i < |KnownCodes| && KnownCodes[i] == code.value;
      MessagesDiffer(i, i);
      assert |KnownMessages[i]| > 0;
    }
  }

  /** The service with the Firestore `users` collection it reads and writes. */
  class AuthService {
    var users: map<string, User>

    constructor(users: map<string, User>)
      ensures this.users == users
    {
      this.users := users;
    }

    /** `signUp`: creates the account, sets its display name and writes its user record,
        which is returned; any failure leaves the collection as it was and is rethrown
        with its translated message. The clock is read twice: `createdAt` and
        `lastLoginAt` are the two ISO timestamps, which may differ. */
    method SignUp(email: string, password: string, username: string, roleType: UserRoleType,
                  specificRole: Option<UserSpecificRole>, createdAt: string, lastLoginAt: string,
                  created: Credential, profileUpdate: Step, write: Step) returns (r: Outcome<User>)
      modifies this
      ensures created.CredentialError? ==> r == Fail(GetErrorMessage(created.code)) && users == old(users)
      ensures created.Credential? && profileUpdate.Failed? ==> r == Fail(GetErrorMessage(profileUpdate.code)) && users == old(users)
      ensures created.Credential? && profileUpdate.Done? && write.Failed? ==> r == Fail(GetErrorMessage(write.code)) && users == old(users)
      ensures r.Ok? <==> created.Credential? && profileUpdate.Done? && write.Done?
      ensures r.Ok? ==>
        && r.value == User(created.uid, created.email, Some(username), username, roleType, specificRole, Some(createdAt), Some(lastLoginAt))
        && users == old(users)[created.uid := r.value]
    {
      if created.CredentialError? {
        return Fail(GetErrorMessage(created.code));
      }
      if profileUpdate.Failed? {
        return Fail(GetErrorMessage(profileUpdate.code));
      }
      var userData := User(created.uid, created.email, Some(username), username, roleType, specificRole, Some(createdAt), Some(lastLoginAt));
      if write.Failed? {
        return Fail(GetErrorMessage(write.code));
      }
      users := users[created.uid := userData];
      r := Ok(userData);
    }

    /** `signIn`: signs in, reads the user record, stamps its last login time and returns
        it. A missing record throws an error without a code, so it surfaces as the
        generic message. The clock is read twice: `storedAt` is the stamp written to the
        record and `returnedAt` the one in the returned user, which may differ. */
    method SignIn(email: string, password: string, storedAt: string, returnedAt: string,
                  signedIn: Credential, read: Step, update: Step) returns (r: Outcome<User>)
      modifies this
      ensures signedIn.CredentialError? ==> r == Fail(GetErrorMessage(signedIn.code)) && users == old(users)
      ensures signedIn.Credential? && read.Failed? ==> r == Fail(GetErrorMessage(read.code)) && users == old(users)
      ensures signedIn.Credential? && read.Done? && signedIn.uid !in old(users) ==>
        r == Fail(DefaultError) && users == old(users)
      ensures signedIn.Credential? && read.Done? && signedIn.uid in old(users) && update.Failed? ==>
        r == Fail(GetErrorMessage(update.code)) && users == old(users)
      ensures r.Ok? <==> signedIn.Credential? && read.Done? && signedIn.uid in old(users) && update.Done?
      ensures r.Ok? ==>
        && r.value == old(users)[signedIn.uid].(lastLoginAt := Some(returnedAt))
        && users == old(users)[signedIn.uid := old(users)[signedIn.uid].(lastLoginAt := Some(storedAt))]
    {
      // `new Error('User data not found. ...')` has no code
      r := SignInReporting(storedAt, returnedAt, signedIn, read, update, GetErrorMessage(None));
    }

    /** Sign-in as evidently intended: a missing user record reports its own message. */
    method SignInCorrected(email: string, password: string, storedAt: string, returnedAt: string,
                           signedIn: Credential, read: Step, update: Step) returns (r: Outcome<User>)
      modifies this
      ensures signedIn.CredentialError? ==> r == Fail(GetErrorMessage(signedIn.code)) && users == old(users)
      ensures signedIn.Credential? && read.Failed? ==> r == Fail(GetErrorMessage(read.code)) && users == old(users)
      ensures signedIn.Credential? && read.Done? && signedIn.uid !in old(users) ==>
        r == Fail(MissingProfile) && users == old(users)
      ensures signedIn.Credential? && read.Done? && signedIn.uid in old(users) && update.Failed? ==>
        r == Fail(GetErrorMessage(update.code)) && users == old(users)
      ensures r.Ok? <==> signedIn.Credential? && read.Done? && signedIn.uid in old(users) && update.Done?
      ensures r.Ok? ==>
        && r.value == old(users)[signedIn.uid].(lastLoginAt := Some(returnedAt))
        && users == old(users)[signedIn.uid := old(users)[signedIn.uid].(lastLoginAt := Some(storedAt))]
    {
      r := SignInReporting(storedAt, returnedAt, signedIn, read, update, MissingProfile);
    }

    /** The sign-in steps, reporting a missing user record with `missing`. */
    method SignInReporting(storedAt: string, returnedAt: string, signedIn: Credential, read: Step, update: Step, missing: string) returns (r: Outcome<User>)
      modifies this
      ensures signedIn.CredentialError? ==> r == Fail(GetErrorMessage(signedIn.code)) && users == old(users)
      ensures signedIn.Credential? && read.Failed? ==> r == Fail(GetErrorMessage(read.code)) && users == old(users)
      ensures signedIn.Credential? && read.Done? && signedIn.uid !in old(users) ==>
        r == Fail(missing) && users == old(users)
      ensures signedIn.Credential? && read.Done? && signedIn.uid in old(users) && update.Failed? ==>
        r == Fail(GetErrorMessage(update.code)) && users == old(users)
      ensures r.Ok? <==> signedIn.Credential? && read.Done? && signedIn.uid in old(users) && update.Done?
      ensures r.Ok? ==>
        && r.value == old(users)[signedIn.uid].(lastLoginAt := Some(returnedAt))
        && users == old(users)[signedIn.uid := old(users)[signedIn.uid].(lastLoginAt := Some(storedAt))]
    {
      if signedIn.CredentialError? {
        return Fail(GetErrorMessage(signedIn.code));
      }
      if read.Failed? {
        return Fail(GetErrorMessage(read.code));
      }
      if signedIn.uid !in users {
        return Fail(missing);
      }
      var userData := users[signedIn.uid];
      if update.Failed? {
        return Fail(GetErrorMessage(update.code));
      }
      users := users[signedIn.uid := userData.(lastLoginAt := Some(storedAt))];
      r := Ok(userData.(lastLoginAt := Some(returnedAt)));
    }
  }
}
