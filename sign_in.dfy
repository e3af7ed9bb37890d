/**
 * `SignInActivity`: once a user is signed in (already, or after Google
 * sign-in), their profile document decides the next screen: the main screen
 * when it exists, the onboarding form when it is missing or cannot be read.
 */
module SignIn {
  import opened Wrappers
  import opened Documents
  import opened Screens

  /** `checkUserDetails`' choice of screen. */
  function Route(lookup: Lookup): (s: Screen)
    ensures s == MainScreen <==> lookup.Exists?
    ensures s == MainScreen || s == DetailsScreen
  {
    if lookup.Exists? then MainScreen else DetailsScreen
  }

  /** `users/{uid}.get()` on a store that does not fail: the document, or a missing one. */
  function LookupIn(users: map<string, Document>, uid: string): (l: Lookup)
    ensures l.Exists? <==> uid in users
    ensures l.Exists? ==> l.doc == users[uid]
  {
    if uid in users then Exists(users[uid]) else Missing
  }

  /** A user whose profile was written is sent to the main screen at the next sign-in. */
  lemma WrittenProfileRoutesToMain(users: map<string, Document>, uid: string, doc: Document)
    ensures Route(LookupIn(users[uid := doc], uid)) == MainScreen
  {
  }

  /** A read failure is treated like a missing profile. */
  lemma FailureRoutesLikeMissing()
    ensures Route(Failed) == Route(Missing) == DetailsScreen
  {
  }

  class SignInActivity {
    /** Screens started, in order, and whether this one finished. */
    var started: seq<Screen>
    var finished: bool
    /** The uids whose profile document was looked up. */
    var checked: seq<string>

    constructor ()
      ensures started == [] && !finished && checked == []
    {
      started, finished, checked := [], false, [];
    }

    /** `checkUserDetails(uid)` with the outcome of the lookup: start the routed screen and finish. */
    method CheckUserDetails(uid: string, lookup: Lookup)
      modifies this
      ensures started == old(started) + [Route(lookup)] && finished
      ensures checked == old(checked) + [uid]
    {
      checked := checked + [uid];
      started := started + [Route(lookup)];
      finished := true;
    }

    /** `onCreate`: an already signed-in user is checked at once; otherwise the screen waits for the button. */
    method OnCreate(currentUser: Option<string>, lookup: Lookup)
      modifies this
      ensures currentUser.Some? ==>
        started == old(started) + [Route(lookup)] && finished && checked == old(checked) + [currentUser.value]
      ensures currentUser.None? ==>
        started == old(started) && finished == old(finished) && checked == old(checked)
    {
      if currentUser.Some? {
        CheckUserDetails(currentUser.value, lookup);
      }
    }

    /**
     * The sign-in result and `firebaseAuthWithGoogle`: only an OK result with
     * an account, whose credential then signs in, checks the new uid; every
     * failure stays on this screen.
     */
    method OnSignInResult(resultOk: bool, accountFound: bool, authSucceeded: bool, uid: string, lookup: Lookup)
      modifies this
      ensures resultOk && accountFound && authSucceeded ==>
        started == old(started) + [Route(lookup)] && finished && checked == old(checked) + [uid]
      ensures !(resultOk && accountFound && authSucceeded) ==>
        started == old(started) && finished == old(finished) && checked == old(checked)
    {
      if resultOk && accountFound && authSucceeded {
        CheckUserDetails(uid, lookup);
      }
    }
  }
}
