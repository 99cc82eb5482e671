/** The three tables of the store as maps, the lookups the storage offers
    over them, the consistency rules that tie them together, and the checks
    each write performs before it touches a table. */
module Tables {
  import opened Records

  type Devices = map<DeviceIdHash, Device>
  type Codes = map<CodeId, Code>
  type Users = map<UserId, User>

  // ---------------------------------------------------------------- lookups

  /** The devices scoped to `email`. */
  function DevicesByEmail(devices: Devices, email: Email): (r: set<DeviceIdHash>)
  {
    set d | d in devices && devices[d].email == Some(email)
  }

  /** The devices scoped to `phoneNumber`. */
  function DevicesByPhoneNumber(devices: Devices, phoneNumber: PhoneNumber): (r: set<DeviceIdHash>)
  {
    set d | d in devices && devices[d].phoneNumber == Some(phoneNumber)
  }

  /** The codes owned by any of the devices `owners`. */
  function CodesOfDevices(codes: Codes, owners: set<DeviceIdHash>): (r: set<CodeId>)
  {
    set c | c in codes && codes[c].deviceIdHash in owners
  }

  /** The codes owned by the device `deviceIdHash`. */
  function CodesOfDevice(codes: Codes, deviceIdHash: DeviceIdHash): (r: set<CodeId>)
  {
    CodesOfDevices(codes, {deviceIdHash})
  }

  /** The codes whose link hash is `linkCodeHash`. */
  function CodesByLinkCodeHash(codes: Codes, linkCodeHash: LinkCodeHash): (r: set<CodeId>)
  {
    set c | c in codes && codes[c].linkCodeHash == linkCodeHash
  }

  /** The users whose email is `email`. */
  function UsersByEmail(users: Users, email: Email): (r: set<UserId>)
  {
    set u | u in users && users[u].email == Some(email)
  }

  /** The users whose phone number is `phoneNumber`. */
  function UsersByPhoneNumber(users: Users, phoneNumber: PhoneNumber): (r: set<UserId>)
  {
    set u | u in users && users[u].phoneNumber == Some(phoneNumber)
  }

  // ------------------------------------------------------------ consistency

  /** Every device is stored under its own hash and has exactly one contact. */
  ghost predicate DevicesWellFormed(devices: Devices)
  {
    forall d :: d in devices ==>
      devices[d].deviceIdHash == d && ExactlyOneContact(devices[d].email, devices[d].phoneNumber)
  }

  /** Every code is stored under its own id and its device exists. */
  ghost predicate CodesWellFormed(codes: Codes, devices: Devices)
  {
    forall c :: c in codes ==> codes[c].id == c && codes[c].deviceIdHash in devices
  }

  /** No two codes share a link hash, whatever their devices. */
  ghost predicate LinkCodeHashesUnique(codes: Codes)
  {
    forall c1, c2 :: c1 in codes && c2 in codes && codes[c1].linkCodeHash == codes[c2].linkCodeHash ==> c1 == c2
  }

  /** Every user is stored under its own id. */
  ghost predicate UsersWellFormed(users: Users)
  {
    forall u :: u in users ==> users[u].userId == u
  }

  /** No two users share an email. */
  ghost predicate EmailsUnique(users: Users)
  {
    forall u1, u2 :: u1 in users && u2 in users && users[u1].email.Some? && users[u1].email == users[u2].email ==> u1 == u2
  }

  /** No two users share a phone number. */
  ghost predicate PhoneNumbersUnique(users: Users)
  {
    forall u1, u2 ::
      u1 in users && u2 in users && users[u1].phoneNumber.Some? && users[u1].phoneNumber == users[u2].phoneNumber
      ==> u1 == u2
  }

  /** The invariant of the whole store. */
  ghost predicate Consistent(devices: Devices, codes: Codes, users: Users)
  {
    && DevicesWellFormed(devices)
    && CodesWellFormed(codes, devices)
    && LinkCodeHashesUnique(codes)
    && UsersWellFormed(users)
    && EmailsUnique(users)
    && PhoneNumbersUnique(users)
  }

  // ------------------------------------------------------------------ checks

  /** True when `email` is set and some user other than `userId` holds it. */
  predicate EmailHeldByOther(users: Users, userId: UserId, email: Option<Email>)
  {
    email.Some? && UsersByEmail(users, email.value) - {userId} != {}
  }

  /** True when `phoneNumber` is set and some user other than `userId` holds it. */
  predicate PhoneNumberHeldByOther(users: Users, userId: UserId, phoneNumber: Option<PhoneNumber>)
  {
    phoneNumber.Some? && UsersByPhoneNumber(users, phoneNumber.value) - {userId} != {}
  }

  /** The outcome of creating a device together with its first code `code`:
      the device must have exactly one contact, and the device hash, the
      code id and the link hash must all be new. Each error is reported
      only when its collision is real, and a call that collides on one key
      only reports that key. */
  function CreateDeviceWithCodeCheck(devices: Devices, codes: Codes, email: Option<Email>,
                                     phoneNumber: Option<PhoneNumber>, code: Code): (r: Outcome)
    ensures r in {Ok, InvalidInput, DuplicateDeviceIdHash, DuplicateCodeId, DuplicateLinkCodeHash}
    ensures r == Ok <==>
      && ExactlyOneContact(email, phoneNumber)
      && code.deviceIdHash !in devices
      && code.id !in codes
      && CodesByLinkCodeHash(codes, code.linkCodeHash) == {}
    ensures r == InvalidInput <==> !ExactlyOneContact(email, phoneNumber)
    ensures r == DuplicateDeviceIdHash ==> code.deviceIdHash in devices
    ensures r == DuplicateCodeId ==> code.id in codes
    ensures r == DuplicateLinkCodeHash ==> CodesByLinkCodeHash(codes, code.linkCodeHash) != {}
    ensures (ExactlyOneContact(email, phoneNumber) && code.id !in codes && CodesByLinkCodeHash(codes, code.linkCodeHash) == {}
             && code.deviceIdHash in devices) ==> r == DuplicateDeviceIdHash
    ensures (ExactlyOneContact(email, phoneNumber) && code.deviceIdHash !in devices && CodesByLinkCodeHash(codes, code.linkCodeHash) == {}
             && code.id in codes) ==> r == DuplicateCodeId
    ensures (ExactlyOneContact(email, phoneNumber) && code.deviceIdHash !in devices && code.id !in codes
             && CodesByLinkCodeHash(codes, code.linkCodeHash) != {}) ==> r == DuplicateLinkCodeHash
  {
    if !ExactlyOneContact(email, phoneNumber) then InvalidInput
    else if code.deviceIdHash in devices then DuplicateDeviceIdHash
    else if code.id in codes then DuplicateCodeId
    else if CodesByLinkCodeHash(codes, code.linkCodeHash) != {} then DuplicateLinkCodeHash
    else Ok
  }

  /** The outcome of adding `code` to an existing device: the device must
      exist, and the code id and the link hash must be new. */
  function CreateCodeCheck(devices: Devices, codes: Codes, code: Code): (r: Outcome)
    ensures r in {Ok, UnknownDeviceIdHash, DuplicateCodeId, DuplicateLinkCodeHash}
    ensures r == Ok <==>
      code.deviceIdHash in devices && code.id !in codes && CodesByLinkCodeHash(codes, code.linkCodeHash) == {}
    ensures r == UnknownDeviceIdHash <==> code.deviceIdHash !in devices
    ensures r == DuplicateCodeId ==> code.id in codes
    ensures r == DuplicateLinkCodeHash ==> CodesByLinkCodeHash(codes, code.linkCodeHash) != {}
    ensures (code.deviceIdHash in devices && CodesByLinkCodeHash(codes, code.linkCodeHash) == {}
             && code.id in codes) ==> r == DuplicateCodeId
    ensures (code.deviceIdHash in devices && code.id !in codes
             && CodesByLinkCodeHash(codes, code.linkCodeHash) != {}) ==> r == DuplicateLinkCodeHash
  {
    if code.deviceIdHash !in devices then UnknownDeviceIdHash
    else if code.id in codes then DuplicateCodeId
    else if CodesByLinkCodeHash(codes, code.linkCodeHash) != {} then DuplicateLinkCodeHash
    else Ok
  }

  /** The outcome of creating user `userId`: at least one of email and
      phone number must be given, and the id, the email and the phone
      number must not be held by any user yet. */
  function CreateUserCheck(users: Users, userId: UserId, email: Option<Email>,
                           phoneNumber: Option<PhoneNumber>): (r: Outcome)
    ensures r in {Ok, InvalidInput, DuplicateUserId, DuplicateEmail, DuplicatePhoneNumber}
    ensures r == Ok <==>
      && (email.Some? || phoneNumber.Some?)
      && userId !in users
      && !EmailHeldByOther(users, userId, email)
      && !PhoneNumberHeldByOther(users, userId, phoneNumber)
    ensures r == InvalidInput <==> email.None? && phoneNumber.None?
    ensures r == DuplicateUserId ==> userId in users
    ensures r == DuplicateEmail ==> EmailHeldByOther(users, userId, email)
    ensures r == DuplicatePhoneNumber ==> PhoneNumberHeldByOther(users, userId, phoneNumber)
    ensures ((email.Some? || phoneNumber.Some?) && !EmailHeldByOther(users, userId, email)
             && !PhoneNumberHeldByOther(users, userId, phoneNumber) && userId in users) ==> r == DuplicateUserId
    ensures (userId !in users && !PhoneNumberHeldByOther(users, userId, phoneNumber)
             && EmailHeldByOther(users, userId, email)) ==> r == DuplicateEmail
    ensures (userId !in users && !EmailHeldByOther(users, userId, email)
             && PhoneNumberHeldByOther(users, userId, phoneNumber)) ==> r == DuplicatePhoneNumber
  {
    if email.None? && phoneNumber.None? then InvalidInput
    else if userId in users then DuplicateUserId
    else if EmailHeldByOther(users, userId, email) then DuplicateEmail
    else if PhoneNumberHeldByOther(users, userId, phoneNumber) then DuplicatePhoneNumber
    else Ok
  }

  /** The outcome of setting (or, with `None`, clearing) the email of user
      `userId`: the user must exist and no other user may hold the new
      email. Keeping one's own email is not a collision. */
  function UpdateUserEmailCheck(users: Users, userId: UserId, newEmail: Option<Email>): (r: Outcome)
    ensures r in {Ok, UnknownUserId, DuplicateEmail}
    ensures r == UnknownUserId <==> userId !in users
    ensures r == DuplicateEmail <==> userId in users && EmailHeldByOther(users, userId, newEmail)
    ensures newEmail.None? ==> r != DuplicateEmail
  {
    if userId !in users then UnknownUserId
    else if EmailHeldByOther(users, userId, newEmail) then DuplicateEmail
    else Ok
  }

  /** The outcome of setting (or, with `None`, clearing) the phone number
      of user `userId`: the user must exist and no other user may hold the
      new phone number. */
  function UpdateUserPhoneNumberCheck(users: Users, userId: UserId, newPhoneNumber: Option<PhoneNumber>): (r: Outcome)
    ensures r in {Ok, UnknownUserId, DuplicatePhoneNumber}
    ensures r == UnknownUserId <==> userId !in users
    ensures r == DuplicatePhoneNumber <==> userId in users && PhoneNumberHeldByOther(users, userId, newPhoneNumber)
    ensures newPhoneNumber.None? ==> r != DuplicatePhoneNumber
  {
    if userId !in users then UnknownUserId
    else if PhoneNumberHeldByOther(users, userId, newPhoneNumber) then DuplicatePhoneNumber
    else Ok
  }

  // ------------------------------------------------------------------ lemmas

  /** With unique emails, looking up the email of a user finds that user
      and no one else. */
  lemma UsersByEmailFindsOwner(users: Users, u: UserId, email: Email)
    requires EmailsUnique(users)
    requires u in users && users[u].email == Some(email)
    ensures UsersByEmail(users, email) == {u}
  {
  }

  /** With unique phone numbers, looking up the phone number of a user
      finds that user and no one else. */
  lemma UsersByPhoneNumberFindsOwner(users: Users, u: UserId, phoneNumber: PhoneNumber)
    requires PhoneNumbersUnique(users)
    requires u in users && users[u].phoneNumber == Some(phoneNumber)
    ensures UsersByPhoneNumber(users, phoneNumber) == {u}
  {
  }

  /** With unique emails, an email lookup returns at most one user. */
  lemma {:induction false} UsersByEmailAtMostOne(users: Users, email: Email)
    requires EmailsUnique(users)
    ensures |UsersByEmail(users, email)| <= 1
  {
    if UsersByEmail(users, email) != {} {
      var u :| u in UsersByEmail(users, email);
      UsersByEmailFindsOwner(users, u, email);
    }
  }

  /** With unique phone numbers, a phone lookup returns at most one user. */
  lemma {:induction false} UsersByPhoneNumberAtMostOne(users: Users, phoneNumber: PhoneNumber)
    requires PhoneNumbersUnique(users)
    ensures |UsersByPhoneNumber(users, phoneNumber)| <= 1
  {
    if UsersByPhoneNumber(users, phoneNumber) != {} {
      var u :| u in UsersByPhoneNumber(users, phoneNumber);
      UsersByPhoneNumberFindsOwner(users, u, phoneNumber);
    }
  }

  /** Storing a new device adds it to the email lookup of its own email
      and to no other, so that list grows by exactly one. */
  lemma DevicesByEmailAfterInsert(devices: Devices, device: Device, email: Email)
    requires device.deviceIdHash !in devices
    ensures DevicesByEmail(devices[device.deviceIdHash := device], email)
         == DevicesByEmail(devices, email) + (if device.email == Some(email) then {device.deviceIdHash} else {})
    ensures |DevicesByEmail(devices[device.deviceIdHash := device], email)|
         == |DevicesByEmail(devices, email)| + (if device.email == Some(email) then 1 else 0)
  {
  }

  /** Storing a new device adds it to the phone lookup of its own phone
      number and to no other, so that list grows by exactly one. */
  lemma DevicesByPhoneNumberAfterInsert(devices: Devices, device: Device, phoneNumber: PhoneNumber)
    requires device.deviceIdHash !in devices
    ensures DevicesByPhoneNumber(devices[device.deviceIdHash := device], phoneNumber)
         == DevicesByPhoneNumber(devices, phoneNumber) + (if device.phoneNumber == Some(phoneNumber) then {device.deviceIdHash} else {})
    ensures |DevicesByPhoneNumber(devices[device.deviceIdHash := device], phoneNumber)|
         == |DevicesByPhoneNumber(devices, phoneNumber)| + (if device.phoneNumber == Some(phoneNumber) then 1 else 0)
  {
  }

  /** Storing a new code adds it to the code list of its own device only,
      so that list grows by exactly one. */
  lemma CodesOfDeviceAfterInsert(codes: Codes, code: Code, deviceIdHash: DeviceIdHash)
    requires code.id !in codes
    ensures CodesOfDevice(codes[code.id := code], deviceIdHash)
         == CodesOfDevice(codes, deviceIdHash) + (if code.deviceIdHash == deviceIdHash then {code.id} else {})
    ensures |CodesOfDevice(codes[code.id := code], deviceIdHash)|
         == |CodesOfDevice(codes, deviceIdHash)| + (if code.deviceIdHash == deviceIdHash then 1 else 0)
  {
  }

  /** Storing a new code makes its link hash taken and leaves every other
      link hash as free or as taken as it was. */
  lemma CodesByLinkCodeHashAfterInsert(codes: Codes, code: Code, linkCodeHash: LinkCodeHash)
    requires code.id !in codes
    ensures CodesByLinkCodeHash(codes[code.id := code], linkCodeHash)
         == CodesByLinkCodeHash(codes, linkCodeHash) + (if code.linkCodeHash == linkCodeHash then {code.id} else {})
  {
  }

  // ------------------------------------------- each successful write keeps the invariant

  /** When neither `email` nor `phoneNumber` is held by a user other than
      `userId`, every other user has a different email and phone number. */
  lemma {:induction false} NoOtherHolder(users: Users, userId: UserId, email: Option<Email>, phoneNumber: Option<PhoneNumber>)
    requires !EmailHeldByOther(users, userId, email) && !PhoneNumberHeldByOther(users, userId, phoneNumber)
    ensures forall v :: v in users && v != userId ==>
      (email.Some? ==> users[v].email != email) && (phoneNumber.Some? ==> users[v].phoneNumber != phoneNumber)
  {
    forall v | v in users && v != userId
      ensures (email.Some? ==> users[v].email != email) && (phoneNumber.Some? ==> users[v].phoneNumber != phoneNumber)
    {
      if email.Some? {
        assert v !in UsersByEmail(users, email.value) - {userId};
      }
      if phoneNumber.Some? {
        assert v !in UsersByPhoneNumber(users, phoneNumber.value) - {userId};
      }
    }
  }

  /** Adding a code that passed its checks keeps link hashes unique and
      every code attached to an existing device. */
  lemma {:induction false} InsertCodeKeepsCodesConsistent(devices: Devices, codes: Codes, code: Code)
    requires CodesWellFormed(codes, devices) && LinkCodeHashesUnique(codes)
    requires code.deviceIdHash in devices && code.id !in codes && CodesByLinkCodeHash(codes, code.linkCodeHash) == {}
    ensures CodesWellFormed(codes[code.id := code], devices)
    ensures LinkCodeHashesUnique(codes[code.id := code])
  {
    forall c | c in codes ensures codes[c].linkCodeHash != code.linkCodeHash {
      assert c !in CodesByLinkCodeHash(codes, code.linkCodeHash);
    }
  }

  /** A device and first code that passed `CreateDeviceWithCodeCheck` can be
      stored without breaking the invariant. */
  lemma {:induction false} CreateDeviceWithCodeKeepsConsistent(devices: Devices, codes: Codes, users: Users,
                                                              email: Option<Email>, phoneNumber: Option<PhoneNumber>, code: Code)
    requires Consistent(devices, codes, users)
    requires CreateDeviceWithCodeCheck(devices, codes, email, phoneNumber, code) == Ok
    ensures Consistent(devices[code.deviceIdHash := Device(code.deviceIdHash, email, phoneNumber)], codes[code.id := code], users)
  {
    var devices' := devices[code.deviceIdHash := Device(code.deviceIdHash, email, phoneNumber)];
    assert CodesWellFormed(codes, devices');
    InsertCodeKeepsCodesConsistent(devices', codes, code);
  }

  /** A code that passed `CreateCodeCheck` can be stored without breaking
      the invariant. */
  lemma {:induction false} CreateCodeKeepsConsistent(devices: Devices, codes: Codes, users: Users, code: Code)
    requires Consistent(devices, codes, users)
    requires CreateCodeCheck(devices, codes, code) == Ok
    ensures Consistent(devices, codes[code.id := code], users)
  {
    InsertCodeKeepsCodesConsistent(devices, codes, code);
  }

  /** A user that passed `CreateUserCheck` can be stored without breaking
      the invariant. */
  lemma {:induction false} CreateUserKeepsConsistent(devices: Devices, codes: Codes, users: Users,
                                                    userId: UserId, email: Option<Email>, phoneNumber: Option<PhoneNumber>)
    requires Consistent(devices, codes, users)
    requires CreateUserCheck(users, userId, email, phoneNumber) == Ok
    ensures Consistent(devices, codes, users[userId := User(userId, email, phoneNumber)])
  {
    NoOtherHolder(users, userId, email, phoneNumber);
  }

  /** An email update that passed `UpdateUserEmailCheck` keeps the
      invariant. */
  lemma {:induction false} UpdateUserEmailKeepsConsistent(devices: Devices, codes: Codes, users: Users,
                                                         userId: UserId, newEmail: Option<Email>)
    requires Consistent(devices, codes, users)
    requires UpdateUserEmailCheck(users, userId, newEmail) == Ok
    ensures Consistent(devices, codes, users[userId := users[userId].(email := newEmail)])
  {
    NoOtherHolder(users, userId, newEmail, None);
  }

  /** A phone-number update that passed `UpdateUserPhoneNumberCheck` keeps
      the invariant. */
  lemma {:induction false} UpdateUserPhoneNumberKeepsConsistent(devices: Devices, codes: Codes, users: Users,
                                                               userId: UserId, newPhoneNumber: Option<PhoneNumber>)
    requires Consistent(devices, codes, users)
    requires UpdateUserPhoneNumberCheck(users, userId, newPhoneNumber) == Ok
    ensures Consistent(devices, codes, users[userId := users[userId].(phoneNumber := newPhoneNumber)])
  {
    NoOtherHolder(users, userId, None, newPhoneNumber);
  }
}
