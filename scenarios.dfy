/** The storage tests as client programs of `Store`: each method starts
    from an empty store, makes the test's calls in the test's order and
    returns what the test reads back, and its postcondition states the
    values the test asserts. Ids and hashes are parameters; the random
    generation of the test becomes a requirement that they be distinct. */
module StorageScenarios {
  import opened Records
  import opened Tables
  import opened PasswordlessStorage

  /** Two codes of two different devices that share no key. */
  predicate Unrelated(code1: Code, code2: Code)
  {
    code1.id != code2.id && code1.deviceIdHash != code2.deviceIdHash && code1.linkCodeHash != code2.linkCodeHash
  }

  /** Two codes of the same device that share no other key. */
  predicate Siblings(code1: Code, code2: Code)
  {
    code1.id != code2.id && code1.deviceIdHash == code2.deviceIdHash && code1.linkCodeHash != code2.linkCodeHash
  }

  /** In a store holding only the device of `code1` with its one code,
      `code2` collides with nothing. */
  lemma OnlyFirstStored(code1: Code, code2: Code)
    requires code1.id != code2.id && code1.linkCodeHash != code2.linkCodeHash
    ensures CodesByLinkCodeHash(map[code1.id := code1], code2.linkCodeHash) == {}
  {
  }

  /** The tables that testCreateDeviceWithCodeExceptions goes through and
      what each of its calls finds in them. */
  lemma {:induction false} CreateDeviceWithCodeExceptionsTables(email: Email, code1: Code, code2: Code)
    requires Unrelated(code1, code2)
    ensures var one, oneCode := map[code1.deviceIdHash := Device(code1.deviceIdHash, Some(email), None)], map[code1.id := code1];
      && CreateDeviceWithCodeCheck(map[], map[], Some(email), None, code1) == Ok
      && CreateDeviceWithCodeCheck(one, oneCode, Some(email), None, Code(code1.id, code2.deviceIdHash, code2.linkCodeHash)) == DuplicateCodeId
      && CreateDeviceWithCodeCheck(one, oneCode, Some(email), None, Code(code2.id, code1.deviceIdHash, code2.linkCodeHash)) == DuplicateDeviceIdHash
      && CreateDeviceWithCodeCheck(one, oneCode, Some(email), None, Code(code2.id, code2.deviceIdHash, code1.linkCodeHash)) == DuplicateLinkCodeHash
      && CreateDeviceWithCodeCheck(one, oneCode, None, None, code2) == InvalidInput
      && CreateDeviceWithCodeCheck(one, oneCode, Some(email), None, code2) == Ok
      && |DevicesByEmail(one, email)| == 1
      && |CodesOfDevice(oneCode, code1.deviceIdHash)| == 1
      && |DevicesByEmail(one[code2.deviceIdHash := Device(code2.deviceIdHash, Some(email), None)], email)| == 2
  {
    var device1 := Device(code1.deviceIdHash, Some(email), None);
    var one, oneCode := map[code1.deviceIdHash := device1], map[code1.id := code1];
    assert DevicesByEmail(map[], email) == {};
    assert CodesOfDevice(map[], code1.deviceIdHash) == {};
    assert CodesByLinkCodeHash(map[], code1.linkCodeHash) == {};
    DevicesByEmailAfterInsert(map[], device1, email);
    CodesOfDeviceAfterInsert(map[], code1, code1.deviceIdHash);
    CodesByLinkCodeHashAfterInsert(map[], code1, code1.linkCodeHash);
    OnlyFirstStored(code1, code2);
    DevicesByEmailAfterInsert(one, Device(code2.deviceIdHash, Some(email), None), email);
  }

  /** testCreateDeviceWithCodeExceptions: a device creation that collides on
      the code id, on the device hash or on the link hash, or has no
      contact, fails with that reason and stores nothing; a valid one
      afterwards adds a second device for the email. */
  method CreateDeviceWithCodeExceptions(email: Email, code1: Code, code2: Code)
    returns (outcomes: seq<Outcome>, devicesOfEmail: seq<nat>, codesOfFirstDevice: seq<nat>, secondDeviceStored: seq<bool>)
    requires Unrelated(code1, code2)
    ensures outcomes == [Ok, DuplicateCodeId, DuplicateDeviceIdHash, DuplicateLinkCodeHash, InvalidInput, Ok]
    ensures devicesOfEmail == [1, 1, 1, 1, 2]
    ensures codesOfFirstDevice == [1, 1]
    ensures secondDeviceStored == [false, false, false]
  {
    CreateDeviceWithCodeExceptionsTables(email, code1, code2);
    var one, oneCode := map[code1.deviceIdHash := Device(code1.deviceIdHash, Some(email), None)], map[code1.id := code1];
    var s := new Store();
    var r0 := s.CreateDeviceWithCode(Some(email), None, code1);
    assert s.devices == one && s.codes == oneCode;
    var n0 := |s.GetDevicesByEmail(email)|;

    var r1 := s.CreateDeviceWithCode(Some(email), None, Code(code1.id, code2.deviceIdHash, code2.linkCodeHash));
    var n1, c1, d1 := |s.GetDevicesByEmail(email)|, |s.GetCodesOfDevice(code1.deviceIdHash)|, s.GetDevice(code2.deviceIdHash).Some?;

    var r2 := s.CreateDeviceWithCode(Some(email), None, Code(code2.id, code1.deviceIdHash, code2.linkCodeHash));
    var n2, c2 := |s.GetDevicesByEmail(email)|, |s.GetCodesOfDevice(code1.deviceIdHash)|;

    var r3 := s.CreateDeviceWithCode(Some(email), None, Code(code2.id, code2.deviceIdHash, code1.linkCodeHash));
    var n3, d3 := |s.GetDevicesByEmail(email)|, s.GetDevice(code2.deviceIdHash).Some?;

    var r4 := s.CreateDeviceWithCode(None, None, code2);
    var d4 := s.GetDevice(code2.deviceIdHash).Some?;

    var r5 := s.CreateDeviceWithCode(Some(email), None, code2);
    var n5 := |s.GetDevicesByEmail(email)|;

    outcomes := [r0, r1, r2, r3, r4, r5];
    devicesOfEmail := [n0, n1, n2, n3, n5];
    codesOfFirstDevice := [c1, c2];
    secondDeviceStored := [d1, d3, d4];
  }

  /** The tables that testCreateCodeExceptions goes through and what each
      of its calls finds in them. */
  lemma {:induction false} CreateCodeExceptionsTables(email: Email, code1: Code, code2: Code)
    requires Siblings(code1, code2)
    ensures var one, oneCode := map[code1.deviceIdHash := Device(code1.deviceIdHash, Some(email), None)], map[code1.id := code1];
      && CreateCodeCheck(map[], map[], code1) == UnknownDeviceIdHash
      && |DevicesByEmail(map[], email)| == 0
      && CreateDeviceWithCodeCheck(map[], map[], Some(email), None, code1) == Ok
      && |DevicesByEmail(one, email)| == 1
      && CreateCodeCheck(one, oneCode, Code(code1.id, code1.deviceIdHash, code2.linkCodeHash)) == DuplicateCodeId
      && |CodesOfDevice(oneCode, code1.deviceIdHash)| == 1
      && CreateCodeCheck(one, oneCode, Code(code2.id, code1.deviceIdHash, code1.linkCodeHash)) == DuplicateLinkCodeHash
      && CreateCodeCheck(one, oneCode, code2) == Ok
      && |CodesOfDevice(oneCode[code2.id := code2], code1.deviceIdHash)| == 2
  {
    var device1 := Device(code1.deviceIdHash, Some(email), None);
    var oneCode := map[code1.id := code1];
    assert DevicesByEmail(map[], email) == {};
    assert CodesOfDevice(map[], code1.deviceIdHash) == {};
    assert CodesByLinkCodeHash(map[], code1.linkCodeHash) == {};
    DevicesByEmailAfterInsert(map[], device1, email);
    CodesOfDeviceAfterInsert(map[], code1, code1.deviceIdHash);
    CodesOfDeviceAfterInsert(oneCode, code2, code1.deviceIdHash);
    assert code1.id in CodesByLinkCodeHash(oneCode, code1.linkCodeHash);
    OnlyFirstStored(code1, code2);
  }

  /** testCreateCodeExceptions: a code for a device that does not exist, or
      one that collides on the id or on the link hash, fails with that
      reason and stores nothing; a valid one grows the device's code list
      from one to two. */
  method CreateCodeExceptions(email: Email, code1: Code, code2: Code)
    returns (outcomes: seq<Outcome>, devicesOfEmail: seq<nat>, codesOfDevice: seq<nat>, failedCodeStored: seq<bool>)
    requires Siblings(code1, code2)
    ensures outcomes == [UnknownDeviceIdHash, Ok, DuplicateCodeId, DuplicateLinkCodeHash, Ok]
    ensures devicesOfEmail == [0, 1]
    ensures codesOfDevice == [1, 1, 2]
    ensures failedCodeStored == [false, false]
  {
    CreateCodeExceptionsTables(email, code1, code2);
    var one, oneCode := map[code1.deviceIdHash := Device(code1.deviceIdHash, Some(email), None)], map[code1.id := code1];
    var s := new Store();
    var r0 := s.CreateCode(code1);
    var n0, k0 := |s.GetDevicesByEmail(email)|, s.GetCode(code1.id).Some?;

    var r1 := s.CreateDeviceWithCode(Some(email), None, code1);
    assert s.devices == one && s.codes == oneCode;
    var n1 := |s.GetDevicesByEmail(email)|;

    var r2 := s.CreateCode(Code(code1.id, code1.deviceIdHash, code2.linkCodeHash));
    var c2 := |s.GetCodesOfDevice(code1.deviceIdHash)|;

    var r3 := s.CreateCode(Code(code2.id, code1.deviceIdHash, code1.linkCodeHash));
    var c3, k3 := |s.GetCodesOfDevice(code1.deviceIdHash)|, s.GetCode(code2.id).Some?;

    var r4 := s.CreateCode(code2);
    var c4 := |s.GetCodesOfDevice(code1.deviceIdHash)|;

    outcomes := [r0, r1, r2, r3, r4];
    devicesOfEmail := [n0, n1];
    codesOfDevice := [c2, c3, c4];
    failedCodeStored := [k0, k3];
  }

  /** The tables that testCreateUserExceptions goes through and what each
      of its calls finds in them. */
  lemma CreateUserExceptionsTables(userId: UserId, userId2: UserId, userId3: UserId,
                                  email: Email, email2: Email, phoneNumber: PhoneNumber, phoneNumber2: PhoneNumber)
    requires userId != userId2 && userId != userId3 && userId2 != userId3
    requires email != email2 && phoneNumber != phoneNumber2
    ensures var one := map[userId := User(userId, Some(email), None)];
            var two := one[userId2 := User(userId2, None, Some(phoneNumber))];
      && CreateUserCheck(map[], userId, Some(email), None) == Ok
      && CreateUserCheck(one, userId2, None, Some(phoneNumber)) == Ok
      && CreateUserCheck(two, userId, Some(email2), None) == DuplicateUserId
      && UsersByEmail(two, email2) == {}
      && CreateUserCheck(two, userId, None, Some(phoneNumber2)) == DuplicateUserId
      && UsersByPhoneNumber(two, phoneNumber2) == {}
      && CreateUserCheck(two, userId3, Some(email), None) == DuplicateEmail
      && CreateUserCheck(two, userId3, None, Some(phoneNumber)) == DuplicatePhoneNumber
      && CreateUserCheck(two, userId3, None, None) == InvalidInput
  {
  }

  /** testCreateUserExceptions: a user whose id, email or phone number is
      taken, or who has neither email nor phone number, is refused with
      that reason and nothing is stored for it. */
  method CreateUserExceptions(userId: UserId, userId2: UserId, userId3: UserId,
                              email: Email, email2: Email, phoneNumber: PhoneNumber, phoneNumber2: PhoneNumber)
    returns (outcomes: seq<Outcome>, firstUserFound: bool, lookupSizes: seq<nat>, thirdUserStored: seq<bool>)
    requires userId != userId2 && userId != userId3 && userId2 != userId3
    requires email != email2 && phoneNumber != phoneNumber2
    ensures outcomes == [Ok, Ok, DuplicateUserId, DuplicateUserId, DuplicateEmail, DuplicatePhoneNumber, InvalidInput]
    ensures firstUserFound
    ensures lookupSizes == [0, 0]
    ensures thirdUserStored == [false, false, false]
  {
    CreateUserExceptionsTables(userId, userId2, userId3, email, email2, phoneNumber, phoneNumber2);
    var one := map[userId := User(userId, Some(email), None)];
    var two := one[userId2 := User(userId2, None, Some(phoneNumber))];
    var s := new Store();
    var r0 := s.CreateUser(userId, Some(email), None);
    var r1 := s.CreateUser(userId2, None, Some(phoneNumber));
    assert s.users == two;
    firstUserFound := s.GetUserById(userId).Some?;

    var r2 := s.CreateUser(userId, Some(email2), None);
    var n2 := |s.ListUsersByEmail(email2)|;

    var r3 := s.CreateUser(userId, None, Some(phoneNumber2));
    var n3 := |s.ListUsersByPhoneNumber(phoneNumber2)|;

    var r4 := s.CreateUser(userId3, Some(email), None);
    var k4 := s.GetUserById(userId3).Some?;

    var r5 := s.CreateUser(userId3, None, Some(phoneNumber));
    var k5 := s.GetUserById(userId3).Some?;

    var r6 := s.CreateUser(userId3, None, None);
    var k6 := s.GetUserById(userId3).Some?;

    outcomes := [r0, r1, r2, r3, r4, r5, r6];
    lookupSizes := [n2, n3];
    thirdUserStored := [k4, k5, k6];
  }

  /** The four users testUpdateUserExceptions creates. */
  function FourUsers(userIdEmail1: UserId, userIdEmail2: UserId, userIdPhone1: UserId, userIdPhone2: UserId,
                     email: Email, email2: Email, phoneNumber: PhoneNumber, phoneNumber2: PhoneNumber): Users
  {
    map[userIdEmail1 := User(userIdEmail1, Some(email), None)]
      [userIdEmail2 := User(userIdEmail2, Some(email2), None)]
      [userIdPhone1 := User(userIdPhone1, None, Some(phoneNumber))]
      [userIdPhone2 := User(userIdPhone2, None, Some(phoneNumber2))]
  }

  /** The tables that testUpdateUserExceptions goes through and what each
      of its updates finds in them. */
  lemma UpdateUserExceptionsTables(missing: UserId, userIdEmail1: UserId, userIdEmail2: UserId,
                                  userIdPhone1: UserId, userIdPhone2: UserId,
                                  email: Email, email2: Email, email3: Email,
                                  phoneNumber: PhoneNumber, phoneNumber2: PhoneNumber, phoneNumber3: PhoneNumber)
    requires missing != userIdEmail1 && missing != userIdEmail2 && missing != userIdPhone1 && missing != userIdPhone2
    requires userIdEmail1 != userIdEmail2 && userIdEmail1 != userIdPhone1 && userIdEmail1 != userIdPhone2
    requires userIdEmail2 != userIdPhone1 && userIdEmail2 != userIdPhone2 && userIdPhone1 != userIdPhone2
    requires email != email2 && phoneNumber != phoneNumber2
    ensures var u1 := map[userIdEmail1 := User(userIdEmail1, Some(email), None)];
            var u2 := u1[userIdEmail2 := User(userIdEmail2, Some(email2), None)];
            var u3 := u2[userIdPhone1 := User(userIdPhone1, None, Some(phoneNumber))];
            var u4 := FourUsers(userIdEmail1, userIdEmail2, userIdPhone1, userIdPhone2, email, email2, phoneNumber, phoneNumber2);
      && CreateUserCheck(map[], userIdEmail1, Some(email), None) == Ok
      && CreateUserCheck(u1, userIdEmail2, Some(email2), None) == Ok
      && CreateUserCheck(u2, userIdPhone1, None, Some(phoneNumber)) == Ok
      && CreateUserCheck(u3, userIdPhone2, None, Some(phoneNumber2)) == Ok
      && u4 == u3[userIdPhone2 := User(userIdPhone2, None, Some(phoneNumber2))]
      && UpdateUserEmailCheck(u4, missing, Some(email3)) == UnknownUserId
      && UpdateUserPhoneNumberCheck(u4, missing, Some(phoneNumber3)) == UnknownUserId
      && UpdateUserEmailCheck(u4, userIdEmail1, Some(email2)) == DuplicateEmail
      && UpdateUserPhoneNumberCheck(u4, userIdPhone1, Some(phoneNumber2)) == DuplicatePhoneNumber
      && UpdateUserPhoneNumberCheck(u4, userIdEmail1, Some(phoneNumber)) == DuplicatePhoneNumber
      && UpdateUserEmailCheck(u4, userIdPhone1, Some(email)) == DuplicateEmail
  {
  }

  /** testUpdateUserExceptions: updating a user that does not exist fails
      with UnknownUserId and creates no one; taking another user's email or
      phone number fails with DuplicateEmail or DuplicatePhoneNumber and the
      user reads back exactly as before, and repeating the failing update
      fails the same way. */
  method UpdateUserExceptions(missing: UserId, userIdEmail1: UserId, userIdEmail2: UserId,
                              userIdPhone1: UserId, userIdPhone2: UserId,
                              email: Email, email2: Email, email3: Email,
                              phoneNumber: PhoneNumber, phoneNumber2: PhoneNumber, phoneNumber3: PhoneNumber)
    returns (outcomes: seq<Outcome>, missingStored: seq<bool>, readBack: seq<Option<User>>)
    requires missing != userIdEmail1 && missing != userIdEmail2 && missing != userIdPhone1 && missing != userIdPhone2
    requires userIdEmail1 != userIdEmail2 && userIdEmail1 != userIdPhone1 && userIdEmail1 != userIdPhone2
    requires userIdEmail2 != userIdPhone1 && userIdEmail2 != userIdPhone2 && userIdPhone1 != userIdPhone2
    requires email != email2 && phoneNumber != phoneNumber2
    ensures outcomes == [Ok, Ok, Ok, Ok, UnknownUserId, UnknownUserId,
                         DuplicateEmail, DuplicateEmail, DuplicatePhoneNumber, DuplicatePhoneNumber, DuplicateEmail]
    ensures missingStored == [false, false]
    ensures readBack == [Some(User(userIdEmail1, Some(email), None)), Some(User(userIdEmail1, Some(email), None)),
                         Some(User(userIdPhone1, None, Some(phoneNumber))), Some(User(userIdEmail1, Some(email), None)),
                         Some(User(userIdPhone1, None, Some(phoneNumber)))]
  {
    UpdateUserExceptionsTables(missing, userIdEmail1, userIdEmail2, userIdPhone1, userIdPhone2,
                               email, email2, email3, phoneNumber, phoneNumber2, phoneNumber3);
    var s := new Store();
    var r0 := s.CreateUser(userIdEmail1, Some(email), None);
    var r1 := s.CreateUser(userIdEmail2, Some(email2), None);
    var r2 := s.CreateUser(userIdPhone1, None, Some(phoneNumber));
    var r3 := s.CreateUser(userIdPhone2, None, Some(phoneNumber2));
    assert s.users == FourUsers(userIdEmail1, userIdEmail2, userIdPhone1, userIdPhone2, email, email2, phoneNumber, phoneNumber2);

    var r4 := s.UpdateUserEmail(missing, Some(email3));
    var k4 := s.GetUserById(missing).Some?;
    var r5 := s.UpdateUserPhoneNumber(missing, Some(phoneNumber3));
    var k5 := s.GetUserById(missing).Some?;

    var r6 := s.UpdateUserEmail(userIdEmail1, Some(email2));
    var b6 := s.GetUserById(userIdEmail1);
    var r7 := s.UpdateUserEmail(userIdEmail1, Some(email2));
    var b7 := s.GetUserById(userIdEmail1);
    var r8 := s.UpdateUserPhoneNumber(userIdPhone1, Some(phoneNumber2));
    var b8 := s.GetUserById(userIdPhone1);
    var r9 := s.UpdateUserPhoneNumber(userIdEmail1, Some(phoneNumber));
    var b9 := s.GetUserById(userIdEmail1);
    var r10 := s.UpdateUserEmail(userIdPhone1, Some(email));
    var b10 := s.GetUserById(userIdPhone1);

    outcomes := [r0, r1, r2, r3, r4, r5, r6, r7, r8, r9, r10];
    missingStored := [k4, k5];
    readBack := [b6, b7, b8, b9, b10];
  }

  // ------------------------------------------------------- updating a user

  /** What checkUser reads back about a user: the stored record, and the
      users found by its email and by its phone number (empty when the user
      has no such contact). */
  datatype UserView = UserView(user: Option<User>, byEmail: set<UserId>, byPhoneNumber: set<UserId>)

  /** checkUser: reads user `userId` back by id, by email and by phone
      number. Whatever its contacts, looking a user up by its own email or
      phone number finds exactly that user. */
  function CheckUser(s: Store, userId: UserId): (v: UserView)
    reads s
    requires s.Valid()
    ensures v.user.Some? <==> userId in s.users
    ensures v.user.Some? ==> v.user.value == s.users[userId]
    ensures v.user.Some? && v.user.value.email.Some? ==> v.byEmail == {userId}
    ensures v.user.Some? && v.user.value.phoneNumber.Some? ==> v.byPhoneNumber == {userId}
    ensures v.user.None? || v.user.value.email.None? ==> v.byEmail == {}
    ensures v.user.None? || v.user.value.phoneNumber.None? ==> v.byPhoneNumber == {}
  {
    var user := s.GetUserById(userId);
    var byEmail :=
      if user.Some? && user.value.email.Some? then
        UsersByEmailFindsOwner(s.users, userId, user.value.email.value);
        s.ListUsersByEmail(user.value.email.value)
      else {};
    var byPhoneNumber :=
      if user.Some? && user.value.phoneNumber.Some? then
        UsersByPhoneNumberFindsOwner(s.users, userId, user.value.phoneNumber.value);
        s.ListUsersByPhoneNumber(user.value.phoneNumber.value)
      else {};
    UserView(user, byEmail, byPhoneNumber)
  }

  /** A store holding the single user `userId`. */
  function SoleUser(userId: UserId, email: Option<Email>, phoneNumber: Option<PhoneNumber>): Users
  {
    map[userId := User(userId, email, phoneNumber)]
  }

  /** The only user of a store can take any email and any phone number, or
      drop either, and the update gives the sole-user table with that
      contact replaced. */
  lemma SoleUserUpdates(userId: UserId, email: Option<Email>, phoneNumber: Option<PhoneNumber>,
                        newEmail: Option<Email>, newPhoneNumber: Option<PhoneNumber>)
    ensures UpdateUserEmailCheck(SoleUser(userId, email, phoneNumber), userId, newEmail) == Ok
    ensures UpdateUserPhoneNumberCheck(SoleUser(userId, email, phoneNumber), userId, newPhoneNumber) == Ok
    ensures var users := SoleUser(userId, email, phoneNumber);
      users[userId := users[userId].(email := newEmail)] == SoleUser(userId, newEmail, phoneNumber)
    ensures var users := SoleUser(userId, email, phoneNumber);
      users[userId := users[userId].(phoneNumber := newPhoneNumber)] == SoleUser(userId, email, newPhoneNumber)
  {
  }

  /** testUpdateUser: a user created with an email moves to another email,
      then drops it and takes a phone number in the same transaction, moves
      to another phone number, and finally takes the first email back and
      drops the phone number; after every step the user reads back with
      exactly the new contacts and is found by each of them. */
  method UpdateUserSequence(userId: UserId, email: Email, email2: Email, phoneNumber: PhoneNumber, phoneNumber2: PhoneNumber)
    returns (outcomes: seq<Outcome>, views: seq<UserView>)
    ensures outcomes == [Ok, Ok, Ok, Ok, Ok, Ok, Ok]
    ensures views == [UserView(Some(User(userId, Some(email2), None)), {userId}, {}),
                      UserView(Some(User(userId, None, Some(phoneNumber))), {}, {userId}),
                      UserView(Some(User(userId, None, Some(phoneNumber2))), {}, {userId}),
                      UserView(Some(User(userId, Some(email), None)), {userId}, {})]
  {
    assert CreateUserCheck(map[], userId, Some(email), None) == Ok by {
      assert UsersByEmail(map[], email) == {};
    }
    var s := new Store();
    var r0 := s.CreateUser(userId, Some(email), None);

    SoleUserUpdates(userId, Some(email), None, Some(email2), None);
    var r1 := s.UpdateUserEmail(userId, Some(email2));
    var v1 := CheckUser(s, userId);

    SoleUserUpdates(userId, Some(email2), None, None, None);
    var r2 := s.UpdateUserEmail(userId, None);
    SoleUserUpdates(userId, None, None, None, Some(phoneNumber));
    var r3 := s.UpdateUserPhoneNumber(userId, Some(phoneNumber));
    var v2 := CheckUser(s, userId);

    SoleUserUpdates(userId, None, Some(phoneNumber), None, Some(phoneNumber2));
    var r4 := s.UpdateUserPhoneNumber(userId, Some(phoneNumber2));
    var v3 := CheckUser(s, userId);

    SoleUserUpdates(userId, None, Some(phoneNumber2), Some(email), None);
    var r5 := s.UpdateUserEmail(userId, Some(email));
    SoleUserUpdates(userId, Some(email), Some(phoneNumber2), None, None);
    var r6 := s.UpdateUserPhoneNumber(userId, None);
    var v4 := CheckUser(s, userId);

    outcomes := [r0, r1, r2, r3, r4, r5, r6];
    views := [v1, v2, v3, v4];
  }

  // -------------------------------------------------------------- deleting

  /** The tables that testDeleteDeviceCascades builds: one device scoped to
      `email` owning both codes. */
  lemma {:induction false} DeleteDeviceCascadesTables(email: Email, code1: Code, code2: Code)
    requires Siblings(code1, code2)
    ensures var one, oneCode := map[code1.deviceIdHash := Device(code1.deviceIdHash, Some(email), None)], map[code1.id := code1];
      && CreateDeviceWithCodeCheck(map[], map[], Some(email), None, code1) == Ok
      && |DevicesByEmail(one, email)| == 1
      && CreateCodeCheck(one, oneCode, code2) == Ok
      && CodesOfDevice(oneCode[code2.id := code2], code1.deviceIdHash) == {code1.id, code2.id}
  {
    var device1 := Device(code1.deviceIdHash, Some(email), None);
    var oneCode := map[code1.id := code1];
    assert DevicesByEmail(map[], email) == {};
    assert CodesOfDevice(map[], code1.deviceIdHash) == {};
    assert CodesByLinkCodeHash(map[], code1.linkCodeHash) == {};
    DevicesByEmailAfterInsert(map[], device1, email);
    CodesOfDeviceAfterInsert(map[], code1, code1.deviceIdHash);
    CodesOfDeviceAfterInsert(oneCode, code2, code1.deviceIdHash);
    OnlyFirstStored(code1, code2);
  }

  /** testDeleteDeviceCascades: deleting a device removes it and both of its
      codes. */
  method DeleteDeviceCascades(email: Email, code1: Code, code2: Code)
    returns (outcomes: seq<Outcome>, devicesOfEmail: nat, stored: seq<bool>)
    requires Siblings(code1, code2)
    ensures outcomes == [Ok, Ok]
    ensures devicesOfEmail == 1
    ensures stored == [false, false, false]
  {
    DeleteDeviceCascadesTables(email, code1, code2);
    var s := new Store();
    var r0 := s.CreateDeviceWithCode(Some(email), None, code1);
    devicesOfEmail := |s.GetDevicesByEmail(email)|;
    var r1 := s.CreateCode(code2);
    s.DeleteDevice(code1.deviceIdHash);
    outcomes := [r0, r1];
    stored := [s.GetDevice(code1.deviceIdHash).Some?, s.GetCode(code1.id).Some?, s.GetCode(code2.id).Some?];
  }

  /** The tables that the two bulk-delete tests build: two unrelated devices,
      each with its one code. */
  lemma TwoDevicesTables(device1: Device, device2: Device, code1: Code, code2: Code)
    requires Unrelated(code1, code2)
    requires device1.deviceIdHash == code1.deviceIdHash && device2.deviceIdHash == code2.deviceIdHash
    requires ExactlyOneContact(device1.email, device1.phoneNumber) && ExactlyOneContact(device2.email, device2.phoneNumber)
    ensures CreateDeviceWithCodeCheck(map[], map[], device1.email, device1.phoneNumber, code1) == Ok
    ensures CreateDeviceWithCodeCheck(map[device1.deviceIdHash := device1], map[code1.id := code1],
                                      device2.email, device2.phoneNumber, code2) == Ok
    ensures CodesOfDevices(map[code1.id := code1][code2.id := code2], {code1.deviceIdHash}) == {code1.id}
    ensures CodesOfDevices(map[code1.id := code1][code2.id := code2], {code2.deviceIdHash}) == {code2.id}
  {
  }

  /** testDeleteDevicesByEmailCascades: deleting the devices of one email
      removes its device and code and keeps the device and code of another
      email. */
  method DeleteDevicesByEmailCascades(email: Email, email2: Email, code1: Code, code2: Code)
    returns (outcomes: seq<Outcome>, devicesOfEmail: seq<nat>, stored: seq<bool>)
    requires Unrelated(code1, code2) && email != email2
    ensures outcomes == [Ok, Ok]
    ensures devicesOfEmail == [0, 1]
    ensures stored == [false, false, true, true]
  {
    var device1 := Device(code1.deviceIdHash, Some(email), None);
    var device2 := Device(code2.deviceIdHash, Some(email2), None);
    TwoDevicesTables(device1, device2, code1, code2);
    var s := new Store();
    var r0 := s.CreateDeviceWithCode(Some(email), None, code1);
    var r1 := s.CreateDeviceWithCode(Some(email2), None, code2);
    assert DevicesByEmail(map[], email) == {};
    DevicesByEmailAfterInsert(map[], device1, email);
    DevicesByEmailAfterInsert(map[code1.deviceIdHash := device1], device2, email);
    s.DeleteDevicesByEmail(email);
    assert s.devices == map[code2.deviceIdHash := device2];
    assert DevicesByEmail(s.devices, email2) == {code2.deviceIdHash};
    outcomes := [r0, r1];
    devicesOfEmail := [|s.GetDevicesByEmail(email)|, |s.GetDevicesByEmail(email2)|];
    stored := [s.GetDevice(code1.deviceIdHash).Some?, s.GetCode(code1.id).Some?,
               s.GetDevice(code2.deviceIdHash).Some?, s.GetCode(code2.id).Some?];
  }

  /** testDeleteDevicesByPhoneNumberCascades: deleting the devices of one
      phone number removes its device and code and keeps the device and code
      of another phone number. */
  method DeleteDevicesByPhoneNumberCascades(phoneNumber: PhoneNumber, phoneNumber2: PhoneNumber, code1: Code, code2: Code)
    returns (outcomes: seq<Outcome>, devicesOfPhoneNumber: seq<nat>, stored: seq<bool>)
    requires Unrelated(code1, code2) && phoneNumber != phoneNumber2
    ensures outcomes == [Ok, Ok]
    ensures devicesOfPhoneNumber == [0, 1]
    ensures stored == [false, false, true, true]
  {
    var device1 := Device(code1.deviceIdHash, None, Some(phoneNumber));
    var device2 := Device(code2.deviceIdHash, None, Some(phoneNumber2));
    TwoDevicesTables(device1, device2, code1, code2);
    var s := new Store();
    var r0 := s.CreateDeviceWithCode(None, Some(phoneNumber), code1);
    var r1 := s.CreateDeviceWithCode(None, Some(phoneNumber2), code2);
    assert DevicesByPhoneNumber(map[], phoneNumber) == {};
    DevicesByPhoneNumberAfterInsert(map[], device1, phoneNumber);
    DevicesByPhoneNumberAfterInsert(map[code1.deviceIdHash := device1], device2, phoneNumber);
    s.DeleteDevicesByPhoneNumber(phoneNumber);
    assert s.devices == map[code2.deviceIdHash := device2];
    assert DevicesByPhoneNumber(s.devices, phoneNumber2) == {code2.deviceIdHash};
    outcomes := [r0, r1];
    devicesOfPhoneNumber := [|s.GetDevicesByPhoneNumber(phoneNumber)|, |s.GetDevicesByPhoneNumber(phoneNumber2)|];
    stored := [s.GetDevice(code1.deviceIdHash).Some?, s.GetCode(code1.id).Some?,
               s.GetDevice(code2.deviceIdHash).Some?, s.GetCode(code2.id).Some?];
  }

  // --------------------------------------------------------------- locking

  /** The four storage calls testLocking runs inside a transaction. */
  datatype LockingCall = ReadDevice | DeleteByEmail | DeleteByPhoneNumber | DeleteOneDevice

  /** Every locking call, in the order testLocking lists them. */
  const LockingCalls: seq<LockingCall> := [ReadDevice, DeleteByEmail, DeleteByPhoneNumber, DeleteOneDevice]

  /** Runs one locking call against the store. The transaction around it is
      never committed in the test, so `committed` says whether its effect is
      kept; either way no device or code is added or altered, and users are
      untouched. */
  method RunLockingCall(s: Store, call: LockingCall, committed: bool,
                        email: Email, phoneNumber: PhoneNumber, deviceIdHash: DeviceIdHash)
    requires s.Valid()
    modifies s
    ensures s.Valid()
    ensures s.devices.Keys <= old(s.devices).Keys
    ensures forall d :: d in s.devices ==> s.devices[d] == old(s.devices)[d]
    ensures s.codes.Keys <= old(s.codes).Keys
    ensures forall c :: c in s.codes ==> s.codes[c] == old(s.codes)[c]
    ensures s.users == old(s.users)
    ensures !committed ==> s.devices == old(s.devices) && s.codes == old(s.codes)
  {
    if committed {
      match call
      case ReadDevice =>
        var _ := s.GetDevice(deviceIdHash);
      case DeleteByEmail =>
        s.DeleteDevicesByEmail(email);
      case DeleteByPhoneNumber =>
        s.DeleteDevicesByPhoneNumber(phoneNumber);
      case DeleteOneDevice =>
        s.DeleteDevice(deviceIdHash);
    }
  }

  /** The clean-up transaction of testLocking: deleting the devices of
      `email` and then those of `phoneNumber` empties a store whose every
      device is scoped to one of the two, codes included. */
  method ClearDevices(s: Store, email: Email, phoneNumber: PhoneNumber)
    requires s.Valid()
    requires forall d :: d in s.devices ==> s.devices[d].email == Some(email) || s.devices[d].phoneNumber == Some(phoneNumber)
    modifies s
    ensures s.Valid()
    ensures s.devices == map[] && s.codes == map[]
    ensures s.users == old(s.users)
  {
    s.DeleteDevicesByEmail(email);
    assert forall d :: d in s.devices ==> d in DevicesByPhoneNumber(s.devices, phoneNumber) by {
      forall d | d in s.devices ensures d in DevicesByPhoneNumber(s.devices, phoneNumber) {
        assert d !in DevicesByEmail(s.devices, email);
      }
    }
    s.DeleteDevicesByPhoneNumber(phoneNumber);
    assert s.devices.Keys == {};
    assert s.codes.Keys == {};
  }

  /** testLocking without its threads: for every ordered pair of locking
      calls the test creates a device scoped to `email` owning `code1` and a
      device scoped to `phoneNumber` owning `code2`, runs both calls, and
      clears both devices again. Every one of the 32 creations succeeds,
      because each round leaves the store empty; `committed1` and
      `committed2` say whether the first and the second call's transaction
      is kept, and any combination is covered. */
  method RecreateAfterBulkDelete(email: Email, phoneNumber: PhoneNumber, code1: Code, code2: Code,
                                 committed1: bool, committed2: bool)
    returns (outcomes: seq<Outcome>)
    requires Unrelated(code1, code2)
    ensures |outcomes| == 32
    ensures forall k :: 0 <= k < |outcomes| ==> outcomes[k] == Ok
  {
    var device1 := Device(code1.deviceIdHash, Some(email), None);
    var device2 := Device(code2.deviceIdHash, None, Some(phoneNumber));
    TwoDevicesTables(device1, device2, code1, code2);
    var s := new Store();
    outcomes := [];
    var i := 0;
    while i < |LockingCalls|
      invariant 0 <= i <= |LockingCalls|
      invariant s.Valid() && s.devices == map[] && s.codes == map[]
      invariant |outcomes| == 8 * i
      invariant forall k :: 0 <= k < |outcomes| ==> outcomes[k] == Ok
    {
      var j := 0;
      while j < |LockingCalls|
        invariant 0 <= j <= |LockingCalls|
        invariant s.Valid() && s.devices == map[] && s.codes == map[]
        invariant |outcomes| == 8 * i + 2 * j
        invariant forall k :: 0 <= k < |outcomes| ==> outcomes[k] == Ok
      {
        var r1 := s.CreateDeviceWithCode(Some(email), None, code1);
        var r2 := s.CreateDeviceWithCode(None, Some(phoneNumber), code2);
        RunLockingCall(s, LockingCalls[i], committed1, email, phoneNumber, code1.deviceIdHash);
        RunLockingCall(s, LockingCalls[j], committed2, email, phoneNumber, code1.deviceIdHash);
        ClearDevices(s, email, phoneNumber);
        outcomes := outcomes + [r1, r2];
        j := j + 1;
      }
      i := i + 1;
    }
  }
}
