/** The browser's local storage as the controller uses it: two keys, each holding
    a typed snapshot of the whole entity (serialisation is not modelled). */
module Store {
  import opened Types

  class Storage {
    /** The snapshot under `revibe_user`, if one is stored. */
    var user: Option<User>
    /** The snapshot under `revibe_devices`, if one is stored. */
    var devices: Option<seq<Device>>

    /** Storage as a previous session left it. */
    constructor (user: Option<User>, devices: Option<seq<Device>>)
      ensures this.user == user && this.devices == devices
    {
      this.user := user;
      this.devices := devices;
    }

    /** `setItem('revibe_user', …)`: a full overwrite of the profile snapshot. */
    method SetUser(u: User)
      modifies this
      ensures user == Some(u) && devices == old(devices)
    {
      user := Some(u);
    }

    /** `removeItem('revibe_user')`. */
    method RemoveUser()
      modifies this
      ensures user == None && devices == old(devices)
    {
      user := None;
    }

    /** `setItem('revibe_devices', …)`: a full overwrite of the device-list snapshot. */
    method SetDevices(ds: seq<Device>)
      modifies this
      ensures devices == Some(ds) && user == old(user)
    {
      devices := Some(ds);
    }
  }
}
