/** The passwordless storage as an in-memory store: three tables (devices,
    codes, users) kept as maps and updated in place. Every write first runs
    its check against the current tables; a failing call reports the typed
    reason and leaves every table exactly as it was. */
module PasswordlessStorage {
  import opened Records
  import opened Tables

  class Store {
    var devices: Devices
    var codes: Codes
    var users: Users

    /** The store's invariant: every code's device exists, link hashes are
        unique across all codes, and emails and phone numbers are each held
        by at most one user. */
    ghost predicate Valid()
      reads this
    {
      Consistent(devices, codes, users)
    }

    /** An empty store. */
    constructor ()
      ensures Valid()
      ensures devices == map[] && codes == map[] && users == map[]
    {
      devices, codes, users := map[], map[], map[];
    }

    // ---------------------------------------------------------------- reads

    /** The device stored under `deviceIdHash`, if any. The same lookup
        stands for the locking read inside a transaction. */
    function GetDevice(deviceIdHash: DeviceIdHash): (r: Option<Device>)
      reads this
      requires Valid()
      ensures r.Some? <==> deviceIdHash in devices
      ensures r.Some? ==> r.value == devices[deviceIdHash]
      ensures r.Some? ==> r.value.deviceIdHash == deviceIdHash && ExactlyOneContact(r.value.email, r.value.phoneNumber)
    {
      if deviceIdHash in devices then Some(devices[deviceIdHash]) else None
    }

    /** The code stored under `id`, if any; its device exists. */
    function GetCode(id: CodeId): (r: Option<Code>)
      reads this
      requires Valid()
      ensures r.Some? <==> id in codes
      ensures r.Some? ==> r.value == codes[id]
      ensures r.Some? ==> r.value.id == id && r.value.deviceIdHash in devices
    {
      if id in codes then Some(codes[id]) else None
    }

    /** The user stored under `userId`, if any. */
    function GetUserById(userId: UserId): (r: Option<User>)
      reads this
      requires Valid()
      ensures r.Some? <==> userId in users
      ensures r.Some? ==> r.value == users[userId]
      ensures r.Some? ==> r.value.userId == userId
    {
      if userId in users then Some(users[userId]) else None
    }

    /** The hashes of the devices scoped to `email`. */
    function GetDevicesByEmail(email: Email): (r: set<DeviceIdHash>)
      reads this
      ensures forall d :: d in r <==> d in devices && devices[d].email == Some(email)
    {
      DevicesByEmail(devices, email)
    }

    /** The hashes of the devices scoped to `phoneNumber`. */
    function GetDevicesByPhoneNumber(phoneNumber: PhoneNumber): (r: set<DeviceIdHash>)
      reads this
      ensures forall d :: d in r <==> d in devices && devices[d].phoneNumber == Some(phoneNumber)
    {
      DevicesByPhoneNumber(devices, phoneNumber)
    }

    /** The ids of the codes of device `deviceIdHash` (none when it does not exist). */
    function GetCodesOfDevice(deviceIdHash: DeviceIdHash): (r: set<CodeId>)
      reads this
      requires Valid()
      ensures deviceIdHash !in devices ==> r == {}
      ensures forall c :: c in r ==> c in codes && codes[c].deviceIdHash == deviceIdHash
      ensures forall c :: c in codes && codes[c].deviceIdHash == deviceIdHash ==> c in r
    {
      CodesOfDevice(codes, deviceIdHash)
    }

    /** The users whose email is `email`: at most one. */
    function ListUsersByEmail(email: Email): (r: set<UserId>)
      reads this
      requires Valid()
      ensures |r| <= 1
      ensures forall u :: u in r ==> u in users && users[u].email == Some(email)
      ensures forall u :: u in users && users[u].email == Some(email) ==> u in r
    {
      UsersByEmailAtMostOne(users, email);
      UsersByEmail(users, email)
    }

    /** The users whose phone number is `phoneNumber`: at most one. */
    function ListUsersByPhoneNumber(phoneNumber: PhoneNumber): (r: set<UserId>)
      reads this
      requires Valid()
      ensures |r| <= 1
      ensures forall u :: u in r ==> u in users && users[u].phoneNumber == Some(phoneNumber)
      ensures forall u :: u in users && users[u].phoneNumber == Some(phoneNumber) ==> u in r
    {
      UsersByPhoneNumberAtMostOne(users, phoneNumber);
      UsersByPhoneNumber(users, phoneNumber)
    }

    // ------------------------------------------------------ devices and codes

    /** Creates a device scoped to `email` or `phoneNumber` together with its
        first code `code` (the device's hash is `code.deviceIdHash`), both or
        neither. */
    method CreateDeviceWithCode(email: Option<Email>, phoneNumber: Option<PhoneNumber>, code: Code) returns (r: Outcome)
      requires Valid()
      modifies this
      ensures Valid()
      ensures r == CreateDeviceWithCodeCheck(old(devices), old(codes), email, phoneNumber, code)
      ensures r == Ok ==>
        && devices == old(devices)[code.deviceIdHash := Device(code.deviceIdHash, email, phoneNumber)]
        && codes == old(codes)[code.id := code]
      ensures r != Ok ==> devices == old(devices) && codes == old(codes)
      ensures users == old(users)
    {
      r := CreateDeviceWithCodeCheck(devices, codes, email, phoneNumber, code);
      if r == Ok {
        CreateDeviceWithCodeKeepsConsistent(devices, codes, users, email, phoneNumber, code);
        devices := devices[code.deviceIdHash := Device(code.deviceIdHash, email, phoneNumber)];
        codes := codes[code.id := code];
      }
    }

    /** Adds `code` to its existing device. */
    method CreateCode(code: Code) returns (r: Outcome)
      requires Valid()
      modifies this
      ensures Valid()
      ensures r == CreateCodeCheck(old(devices), old(codes), code)
      ensures codes == if r == Ok then old(codes)[code.id := code] else old(codes)
      ensures devices == old(devices) && users == old(users)
    {
      r := CreateCodeCheck(devices, codes, code);
      if r == Ok {
        CreateCodeKeepsConsistent(devices, codes, users, code);
        codes := codes[code.id := code];
      }
    }

    /** Removes the devices `victims` and, in cascade, every code they own;
        every other device and code stays as it was. */
    method RemoveDevices(victims: set<DeviceIdHash>)
      requires Valid()
      modifies this
      ensures Valid()
      ensures devices.Keys == old(devices).Keys - victims
      ensures codes.Keys == old(codes).Keys - CodesOfDevices(old(codes), victims)
      ensures forall d :: d in devices ==> devices[d] == old(devices)[d]
      ensures forall c :: c in codes ==> codes[c] == old(codes)[c]
      ensures users == old(users)
    {
      devices := map d | d in devices && d !in victims :: devices[d];
      codes := map c | c in codes && codes[c].deviceIdHash !in victims :: codes[c];
    }

    /** Deletes device `deviceIdHash` and all of its codes; deleting a
        device that does not exist changes nothing. */
    method DeleteDevice(deviceIdHash: DeviceIdHash)
      requires Valid()
      modifies this
      ensures Valid()
      ensures devices.Keys == old(devices).Keys - {deviceIdHash}
      ensures codes.Keys == old(codes).Keys - CodesOfDevice(old(codes), deviceIdHash)
      ensures CodesOfDevice(codes, deviceIdHash) == {}
      ensures forall d :: d in devices ==> devices[d] == old(devices)[d]
      ensures forall c :: c in codes ==> codes[c] == old(codes)[c]
      ensures deviceIdHash !in old(devices) ==> devices == old(devices) && codes == old(codes)
      ensures users == old(users)
    {
      RemoveDevices({deviceIdHash});
    }

    /** Deletes every device scoped to `email` and all of their codes;
        devices scoped to another email or to a phone number, and their
        codes, are untouched. */
    method DeleteDevicesByEmail(email: Email)
      requires Valid()
      modifies this
      ensures Valid()
      ensures DevicesByEmail(devices, email) == {}
      ensures devices.Keys == old(devices).Keys - DevicesByEmail(old(devices), email)
      ensures codes.Keys == old(codes).Keys - CodesOfDevices(old(codes), DevicesByEmail(old(devices), email))
      ensures forall d :: d in devices ==> devices[d] == old(devices)[d]
      ensures forall c :: c in codes ==> codes[c] == old(codes)[c]
      ensures users == old(users)
    {
      RemoveDevices(DevicesByEmail(devices, email));
    }

    /** Deletes every device scoped to `phoneNumber` and all of their codes;
        devices scoped to another phone number or to an email, and their
        codes, are untouched. */
    method DeleteDevicesByPhoneNumber(phoneNumber: PhoneNumber)
      requires Valid()
      modifies this
      ensures Valid()
      ensures DevicesByPhoneNumber(devices, phoneNumber) == {}
      ensures devices.Keys == old(devices).Keys - DevicesByPhoneNumber(old(devices), phoneNumber)
      ensures codes.Keys == old(codes).Keys - CodesOfDevices(old(codes), DevicesByPhoneNumber(old(devices), phoneNumber))
      ensures forall d :: d in devices ==> devices[d] == old(devices)[d]
      ensures forall c :: c in codes ==> codes[c] == old(codes)[c]
      ensures users == old(users)
    {
      RemoveDevices(DevicesByPhoneNumber(devices, phoneNumber));
    }

    // ----------------------------------------------------------------- users

    /** Creates user `userId` with the given email and phone number. */
    method CreateUser(userId: UserId, email: Option<Email>, phoneNumber: Option<PhoneNumber>) returns (r: Outcome)
      requires Valid()
      modifies this
      ensures Valid()
      ensures r == CreateUserCheck(old(users), userId, email, phoneNumber)
      ensures users == if r == Ok then old(users)[userId := User(userId, email, phoneNumber)] else old(users)
      ensures devices == old(devices) && codes == old(codes)
    {
      r := CreateUserCheck(users, userId, email, phoneNumber);
      if r == Ok {
        CreateUserKeepsConsistent(devices, codes, users, userId, email, phoneNumber);
        users := users[userId := User(userId, email, phoneNumber)];
      }
    }

    /** Sets the email of user `userId` to `newEmail`, or clears it when
        `newEmail` is `None`; the phone number is left as it is. */
    method UpdateUserEmail(userId: UserId, newEmail: Option<Email>) returns (r: Outcome)
      requires Valid()
      modifies this
      ensures Valid()
      ensures r == UpdateUserEmailCheck(old(users), userId, newEmail)
      ensures users == if r == Ok then old(users)[userId := old(users)[userId].(email := newEmail)] else old(users)
      ensures devices == old(devices) && codes == old(codes)
    {
      r := UpdateUserEmailCheck(users, userId, newEmail);
      if r == Ok {
        UpdateUserEmailKeepsConsistent(devices, codes, users, userId, newEmail);
        users := users[userId := users[userId].(email := newEmail)];
      }
    }

    /** Sets the phone number of user `userId` to `newPhoneNumber`, or clears
        it when `newPhoneNumber` is `None`; the email is left as it is. */
    method UpdateUserPhoneNumber(userId: UserId, newPhoneNumber: Option<PhoneNumber>) returns (r: Outcome)
      requires Valid()
      modifies this
      ensures Valid()
      ensures r == UpdateUserPhoneNumberCheck(old(users), userId, newPhoneNumber)
      ensures users == if r == Ok then old(users)[userId := old(users)[userId].(phoneNumber := newPhoneNumber)] else old(users)
      ensures devices == old(devices) && codes == old(codes)
    {
      r := UpdateUserPhoneNumberCheck(users, userId, newPhoneNumber);
      if r == Ok {
        UpdateUserPhoneNumberKeepsConsistent(devices, codes, users, userId, newPhoneNumber);
        users := users[userId := users[userId].(phoneNumber := newPhoneNumber)];
      }
    }
  }
}
