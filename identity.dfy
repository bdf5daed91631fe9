/**
 * The signed-in user as the authentication provider reports it, and the display
 * name the create handlers derive from it.
 */
module Identity {
  import opened Wrappers
  import opened JsString

  /** `currentUser()`: first and last name may be null; the email list may be empty. */
  datatype ClerkUser = ClerkUser(firstName: Option<string>, lastName: Option<string>, emailAddresses: seq<string>)

  /** `${user.firstName || ""} ${user.lastName || ""}`.trim()`. */
  function FullName(u: ClerkUser): (r: string)
    ensures u.firstName.GetOr("") == "" && u.lastName.GetOr("") == "" ==> r == ""
  {
    var joined := u.firstName.GetOr("") + " " + u.lastName.GetOr("");
    assert u.firstName.GetOr("") == "" && u.lastName.GetOr("") == "" ==> AllWhitespace(joined) by {
      if u.firstName.GetOr("") == "" && u.lastName.GetOr("") == "" {
        assert joined == [' '];
      }
    }
    Trim(joined)
  }
}
