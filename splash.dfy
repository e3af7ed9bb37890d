/**
 * `SplashActivity`: asks for the fine-location permission when it is not yet
 * granted, and whatever the answer moves on after the delay to the main
 * screen for a signed-in user or to sign-in otherwise.
 */
module Splash {
  import opened Wrappers
  import opened Screens

  /** `navigateAfterDelay`'s choice, made with the user signed in when the delay ends. */
  function Route(currentUser: Option<string>): (s: Screen)
    ensures s == MainScreen <==> currentUser.Some?
    ensures s == SignInScreen <==> currentUser.None?
  {
    if currentUser.Some? then MainScreen else SignInScreen
  }

  class SplashActivity {
    var permissionRequests: seq<int>
    var started: seq<Screen>
    var finished: bool

    constructor ()
      ensures permissionRequests == [] && started == [] && !finished
    {
      permissionRequests, started, finished := [], [], false;
    }

    /** `navigateAfterDelay`: start the routed screen and finish. */
    method NavigateAfterDelay(currentUser: Option<string>)
      modifies this`started, this`finished
      ensures started == old(started) + [Route(currentUser)] && finished
    {
      started := started + [Route(currentUser)];
      finished := true;
    }

    /** `checkLocationPermission`, run by `onCreate`: request under 1001, or navigate at once when granted. */
    method CheckLocationPermission(granted: bool, currentUser: Option<string>)
      modifies this
      ensures !granted ==>
        permissionRequests == old(permissionRequests) + [LocationRequestCode]
        && started == old(started) && finished == old(finished)
      ensures granted ==>
        permissionRequests == old(permissionRequests)
        && started == old(started) + [Route(currentUser)] && finished
    {
      if !granted {
        permissionRequests := permissionRequests + [LocationRequestCode];
      } else {
        NavigateAfterDelay(currentUser);
      }
    }

    /**
     * `onRequestPermissionsResult`: for code 1001 it navigates whether the
     * permission was granted or denied; any other code is ignored.
     */
    method OnRequestPermissionsResult(requestCode: int, grantResults: seq<int>, currentUser: Option<string>)
      modifies this`started, this`finished
      ensures requestCode == LocationRequestCode ==> started == old(started) + [Route(currentUser)] && finished
      ensures requestCode != LocationRequestCode ==> started == old(started) && finished == old(finished)
    {
      if requestCode == LocationRequestCode {
        if Granted(grantResults) {
          NavigateAfterDelay(currentUser);
        } else {
          NavigateAfterDelay(currentUser);
        }
      }
    }
  }
}
