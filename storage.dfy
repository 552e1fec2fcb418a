/** The browser's local key-value storage, one field per key the client
    uses. JSON encoding is not modelled: each key holds the value itself,
    and `None` stands for a key that is not set. The same object is shared
    by the authentication context, the admin page and the scan context, so
    a write by one is what the others read. */
module Storage {
  import opened Types

  class LocalStorage {
    /** `medvision_users` */
    var users: Option<seq<UserRecord>>
    /** `medvision_current_user` */
    var currentUser: Option<UserRecord>
    /** `token` */
    var token: Option<string>
    /** `medvision_scans` */
    var scans: Option<seq<Scan>>

    /** A fresh browser profile: no key is set. */
    constructor ()
      ensures users == None && currentUser == None && token == None && scans == None
    {
      users, currentUser, token, scans := None, None, None, None;
    }
  }
}
