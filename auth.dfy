/** The session store: who is logged in, and the persisted copy of that
    identity in the `frsc_user` slot. */
module Auth {
  import opened Optional
  import opened Text

  datatype Role = Admin | VehicleOwner

  /** A logged-in identity. For a vehicle owner `email` holds the vehicle
      number as typed. */
  datatype User = User(email: string, role: Role)

  const AdminEmail: string := "admin@frsc.gov.ng"
  const AdminPassword: string := "12345"

  /** The identity the admin login produces, if the credentials are the one
      hardcoded pair under the admin role. Whatever is typed, the only
      identity it can ever produce is that fixed admin. */
  function AdminLogin(email: string, password: string, role: Role): (r: Option<User>)
    ensures r.Some? <==> role == Admin && email == AdminEmail && password == AdminPassword
    ensures r.Some? ==> r.value == User(AdminEmail, Admin) && r.value == User(email, role)
  {
    if role == Admin && email == AdminEmail && password == AdminPassword
    then Some(User(email, role))
    else None
  }

  /** The identity the vehicle-owner login produces: accepted iff the input
      holds a character that is not whitespace (its `trim()` is non-empty),
      and stored untrimmed. */
  function VehicleLogin(vehicleNumber: string): (r: Option<User>)
    ensures r.Some? <==> !AllWhitespace(vehicleNumber)
    ensures r.Some? ==> r.value == User(vehicleNumber, VehicleOwner)
  {
    TrimEmptyIff(vehicleNumber);
    if Trim(vehicleNumber) != [] then Some(User(vehicleNumber, VehicleOwner)) else None
  }

  class Session {
    var user: Option<User>
    /** The `frsc_user` slot. */
    var stored: Option<User>

    /** The stored session is the one in state. */
    ghost predicate Mirrors()
      reads this
    {
      stored == user
    }

    /** `isAuthenticated: !!user` */
    predicate IsAuthenticated()
      reads this
    {
      user.Some?
    }

    /** Before the startup effect runs, nobody is logged in and the slot holds
        whatever an earlier session left. */
    constructor (slot: Option<User>)
      ensures user == None && stored == slot
    {
      user := None;
      stored := slot;
    }

    /** The startup effect: a stored identity is restored; an empty slot
        leaves the state as it was. Started from the constructor's state,
        it leaves the state mirroring the slot. */
    method Restore()
      modifies this
      ensures stored == old(stored)
      ensures user == if old(stored).Some? then old(stored) else old(user)
      ensures old(user) == None ==> Mirrors()
      ensures IsAuthenticated() <==> old(stored).Some? || old(IsAuthenticated())
    {
      if stored.Some? {
        user := stored;
      }
    }

    /** `login`: on success the identity is set in state and slot; on
        failure neither changes. */
    method Login(email: string, password: string, role: Role) returns (ok: bool)
      modifies this
      ensures ok <==> role == Admin && email == AdminEmail && password == AdminPassword
      ensures ok ==> user == Some(User(email, role)) && Mirrors() && IsAuthenticated()
      ensures !ok ==> user == old(user) && stored == old(stored)
    {
      var r := AdminLogin(email, password, role);
      if r.Some? {
        user := r;
        stored := r;
        ok := true;
      } else {
        ok := false;
      }
    }

    /** `loginUser`: accepted iff the input is not all whitespace; the
        untrimmed input becomes the identity. A rejected input changes
        nothing. */
    method LoginUser(vehicleNumber: string) returns (ok: bool)
      modifies this
      ensures ok <==> !AllWhitespace(vehicleNumber)
      ensures ok ==> user == Some(User(vehicleNumber, VehicleOwner)) && Mirrors() && IsAuthenticated()
      ensures !ok ==> user == old(user) && stored == old(stored)
    {
      var r := VehicleLogin(vehicleNumber);
      if r.Some? {
        user := r;
        stored := r;
        ok := true;
      } else {
        ok := false;
      }
    }

    /** `logout`: the identity is cleared and the slot removed, whatever the
        state was, so logging out twice is logging out once. */
    method Logout()
      modifies this
      ensures user == None && stored == None
      ensures Mirrors() && !IsAuthenticated()
    {
      user := None;
      stored := None;
    }
  }
}
