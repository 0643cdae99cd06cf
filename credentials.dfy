/** The two browser stores that can hold the bearer token under the key
    "authToken": localStorage (persistent) and sessionStorage (cleared when
    the browser session ends). */
module Credentials {

  import opened Common

  class CredentialStore {
    /** localStorage.getItem("authToken") */
    var local: Option<string>
    /** sessionStorage.getItem("authToken") */
    var session: Option<string>

    constructor (local: Option<string>, session: Option<string>)
      ensures this.local == local && this.session == session
    {
      this.local := local;
      this.session := session;
    }

    /** `setItem("authToken", token)` on the persistent or the session store. */
    method Save(persistent: bool, token: string)
      modifies this
      ensures persistent ==> local == Some(token) && session == old(session)
      ensures !persistent ==> session == Some(token) && local == old(local)
    {
      if persistent {
        local := Some(token);
      } else {
        session := Some(token);
      }
    }

    /** `removeItem("authToken")` on both stores. */
    method ClearBoth()
      modifies this
      ensures local == None && session == None
    {
      local := None;
      session := None;
    }

    /** `localStorage.getItem("authToken")` is truthy (a non-empty string). */
    function HasPersistentToken(): bool
      reads this
    {
      local.Some? && local.value != ""
    }
  }
}
