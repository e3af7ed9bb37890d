/** The activities the app moves between, as destinations of `startActivity`. */
module Screens {

  datatype Screen = SplashScreen | SignInScreen | DetailsScreen | MainScreen

  /** Android's `PackageManager.PERMISSION_GRANTED`. */
  const PermissionGranted: int := 0

  /** The request code the splash and main screens use for the location permission. */
  const LocationRequestCode: int := 1001

  /** A permission callback reports a grant when its first result is GRANTED. */
  predicate Granted(grantResults: seq<int>) {
    |grantResults| > 0 && grantResults[0] == PermissionGranted
  }
}
