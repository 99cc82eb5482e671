# Passwordless storage contract, modelled in Dafny

This project models the storage contract behind the passwordless login recipe of
SuperTokens core. The contract is pinned down by the storage integration test
`PasswordlessStorageTest`. The storage keeps three tables:

- **devices**: keyed by `deviceIdHash`. A device is one login attempt and is scoped to
  an email or to a phone number.
- **codes**: keyed by `id`. A code is an OTP or magic-link code. It belongs to one
  existing device, and its `linkCodeHash` is unique across all codes.
- **users**: keyed by `userId`. A user has an optional email and an optional phone
  number, and neither may be held by two users.

Every write first checks the current tables. It either succeeds, or fails with a typed
reason and leaves every table exactly as it was. Deleting a device deletes its codes.
Devices can also be deleted in bulk by email or by phone number.

The files:

- `records.dfy` (module `Records`): the records `Device`, `Code` and `User`, the key
  types, and the `Outcome` datatype. `Outcome` has one variant per exception the
  storage throws, plus `Ok`.
- `tables.dfy` (module `Tables`) holds the pure part. It has:
  - the lookups (devices by email or phone number, codes of a device, codes by link
    hash, users by email or phone number);
  - the store invariant `Consistent`;
  - one check function per write, giving the outcome the write reports;
  - lemmas about lookups after an insert, uniqueness of user lookups, and
    preservation of the invariant by each successful write.
- `storage.dfy` (module `PasswordlessStorage`): class `Store`. Its fields `devices`,
  `codes` and `users` are maps updated in place, and `Valid()` is its invariant.
  - Each write method reports exactly its check function's outcome on the old tables.
  - On `Ok` it makes the stated map update. Otherwise nothing changes.
  - The delete methods state the remaining keys, the cascade to codes, and that every
    surviving record is unchanged.
- `scenarios.dfy` (module `StorageScenarios`) has one client method per test. Each
  allocates a fresh `Store`, makes the test's calls in order, and returns what the test
  asserts:
  - the outcomes;
  - lookup sizes;
  - whether records exist;
  - the records read back.

  Its `ensures` clauses are the test's assertions. Beside each method sits a lemma that
  computes the same facts on the tables alone. `RecreateAfterBulkDelete` is the loop of
  `testLocking` without its threads. Its loop invariant proves that every round starts
  from an empty store, so all 32 creations succeed.

Identifiers, hashes, emails and phone numbers are opaque strings chosen by the caller.
A scenario's `requires` states the distinctness that the test gets from random
generation.

## Model

| member | source | states |
|---|---|---|
| Tables.CreateDeviceWithCodeCheck | src/test/java/io/supertokens/test/passwordless/PasswordlessStorageTest.java:84-145 | creation succeeds iff the device has exactly one contact and its hash, the code id and the link hash are all new; InvalidInput iff the device does not have exactly one contact (neither or both set); each other error only when its collision is real; a single collision reports that collision |
| Tables.CreateCodeCheck | src/test/java/io/supertokens/test/passwordless/PasswordlessStorageTest.java:173-222 | a code is added iff its device exists and its id and link hash are new; UnknownDeviceIdHash iff the device is missing; a lone duplicate id or lone duplicate link hash reports exactly that |
| Tables.CreateUserCheck | src/test/java/io/supertokens/test/passwordless/PasswordlessStorageTest.java:263-332 | creation succeeds iff a contact is given and the id, email and phone number are all free; InvalidInput iff both contacts are absent; each error only when real; a lone collision is reported as itself |
| Tables.UpdateUserEmailCheck | src/test/java/io/supertokens/test/passwordless/PasswordlessStorageTest.java:377-465 | UnknownUserId iff the user is missing; DuplicateEmail iff another user holds the new email; clearing the email never collides |
| Tables.UpdateUserPhoneNumberCheck | src/test/java/io/supertokens/test/passwordless/PasswordlessStorageTest.java:399-513 | UnknownUserId iff the user is missing; DuplicatePhoneNumber iff another user holds the new phone number; clearing it never collides |
| Tables.UsersByEmailFindsOwner | src/test/java/io/supertokens/test/passwordless/PasswordlessStorageTest.java:898-902 | with unique emails, looking up a user's email returns exactly that user |
| Tables.UsersByPhoneNumberFindsOwner | src/test/java/io/supertokens/test/passwordless/PasswordlessStorageTest.java:903-906 | with unique phone numbers, looking up a user's phone number returns exactly that user |
| Tables.UsersByEmailAtMostOne | src/test/java/io/supertokens/test/passwordless/PasswordlessStorageTest.java:900-901 | with unique emails, a lookup by email returns at most one user |
| Tables.UsersByPhoneNumberAtMostOne | src/test/java/io/supertokens/test/passwordless/PasswordlessStorageTest.java:904-906 | with unique phone numbers, a lookup by phone number returns at most one user |
| Tables.DevicesByEmailAfterInsert | src/test/java/io/supertokens/test/passwordless/PasswordlessStorageTest.java:148-150 | inserting a new device adds it to its email's device list, one more in number, and leaves other emails' lists alone |
| Tables.DevicesByPhoneNumberAfterInsert | src/test/java/io/supertokens/test/passwordless/PasswordlessStorageTest.java:721-734 | inserting a new device adds it to its phone number's device list and leaves other phone numbers' lists alone |
| Tables.CodesOfDeviceAfterInsert | src/test/java/io/supertokens/test/passwordless/PasswordlessStorageTest.java:225-227 | inserting a new code adds it to its device's code list, one more in number, and leaves other devices' lists alone |
| Tables.CodesByLinkCodeHashAfterInsert | src/test/java/io/supertokens/test/passwordless/PasswordlessStorageTest.java:119-133 | inserting a new code adds it to the codes of its link hash and of no other link hash |
| Tables.CreateDeviceWithCodeKeepsConsistent | src/test/java/io/supertokens/test/passwordless/PasswordlessStorageTest.java:81-150 | a successful device creation keeps the store invariant: every code's device exists, link hashes stay unique, users untouched |
| Tables.CreateCodeKeepsConsistent | src/test/java/io/supertokens/test/passwordless/PasswordlessStorageTest.java:189-227 | a successful code creation keeps the store invariant |
| Tables.CreateUserKeepsConsistent | src/test/java/io/supertokens/test/passwordless/PasswordlessStorageTest.java:258-332 | a successful user creation keeps emails and phone numbers unique |
| Tables.UpdateUserEmailKeepsConsistent | src/test/java/io/supertokens/test/passwordless/PasswordlessStorageTest.java:564-621 | a successful email update keeps emails and phone numbers unique |
| Tables.UpdateUserPhoneNumberKeepsConsistent | src/test/java/io/supertokens/test/passwordless/PasswordlessStorageTest.java:564-621 | a successful phone number update keeps emails and phone numbers unique |
| PasswordlessStorage.Store.constructor | src/test/java/io/supertokens/test/passwordless/PasswordlessStorageTest.java:59-62 | a fresh store is empty and satisfies the invariant |
| PasswordlessStorage.Store.GetDevice | src/test/java/io/supertokens/test/passwordless/PasswordlessStorageTest.java:654 | a device is found iff it is stored, and then it is the stored record, under its own hash, with exactly one contact |
| PasswordlessStorage.Store.GetCode | src/test/java/io/supertokens/test/passwordless/PasswordlessStorageTest.java:655-656 | a code is found iff it is stored, and then it is the stored record, under its own id, and its device exists |
| PasswordlessStorage.Store.GetUserById | src/test/java/io/supertokens/test/passwordless/PasswordlessStorageTest.java:261 | a user is found iff it is stored, and then it is the stored record, under its own id |
| PasswordlessStorage.Store.GetDevicesByEmail | src/test/java/io/supertokens/test/passwordless/PasswordlessStorageTest.java:82 | exactly the stored devices scoped to the email are listed |
| PasswordlessStorage.Store.GetDevicesByPhoneNumber | src/test/java/io/supertokens/test/passwordless/PasswordlessStorageTest.java:730 | exactly the stored devices scoped to the phone number are listed |
| PasswordlessStorage.Store.GetCodesOfDevice | src/test/java/io/supertokens/test/passwordless/PasswordlessStorageTest.java:97-98 | exactly the stored codes that belong to the device are listed; a missing device has no codes |
| PasswordlessStorage.Store.ListUsersByEmail | src/test/java/io/supertokens/test/passwordless/PasswordlessStorageTest.java:900-901 | exactly the users holding the email are listed, and there is at most one |
| PasswordlessStorage.Store.ListUsersByPhoneNumber | src/test/java/io/supertokens/test/passwordless/PasswordlessStorageTest.java:904-906 | exactly the users holding the phone number are listed, and there is at most one |
| PasswordlessStorage.Store.CreateDeviceWithCode | src/test/java/io/supertokens/test/passwordless/PasswordlessStorageTest.java:84-150 | reports the check's outcome; on Ok stores the device and its code; on failure devices and codes are unchanged; users untouched; invariant kept |
| PasswordlessStorage.Store.CreateCode | src/test/java/io/supertokens/test/passwordless/PasswordlessStorageTest.java:173-227 | reports the check's outcome; on Ok stores the code, otherwise codes are unchanged; devices and users untouched; invariant kept |
| PasswordlessStorage.Store.RemoveDevices | src/test/java/io/supertokens/test/passwordless/PasswordlessStorageTest.java:648-656 | removes exactly the given devices and the codes they own; every other device and code is unchanged |
| PasswordlessStorage.Store.DeleteDevice | src/test/java/io/supertokens/test/passwordless/PasswordlessStorageTest.java:648-656 | the device and all of its codes are gone, nothing else changes, and deleting a missing device changes nothing |
| PasswordlessStorage.Store.DeleteDevicesByEmail | src/test/java/io/supertokens/test/passwordless/PasswordlessStorageTest.java:684-696 | no device of the email remains; exactly those devices and their codes are removed; every other device and code is unchanged |
| PasswordlessStorage.Store.DeleteDevicesByPhoneNumber | src/test/java/io/supertokens/test/passwordless/PasswordlessStorageTest.java:724-736 | no device of the phone number remains; exactly those devices and their codes are removed; every other device and code is unchanged |
| PasswordlessStorage.Store.CreateUser | src/test/java/io/supertokens/test/passwordless/PasswordlessStorageTest.java:258-332 | reports the check's outcome; on Ok stores the user, otherwise users are unchanged; invariant kept |
| PasswordlessStorage.Store.UpdateUserEmail | src/test/java/io/supertokens/test/passwordless/PasswordlessStorageTest.java:377-465 | reports the check's outcome; on Ok replaces only the user's email, otherwise users are unchanged; invariant kept |
| PasswordlessStorage.Store.UpdateUserPhoneNumber | src/test/java/io/supertokens/test/passwordless/PasswordlessStorageTest.java:399-513 | reports the check's outcome; on Ok replaces only the user's phone number, otherwise users are unchanged; invariant kept |
| StorageScenarios.OnlyFirstStored | src/test/java/io/supertokens/test/passwordless/PasswordlessStorageTest.java:119-133 | a link hash not used by the one stored code finds no code |
| StorageScenarios.CreateDeviceWithCodeExceptionsTables | src/test/java/io/supertokens/test/passwordless/PasswordlessStorageTest.java:81-150 | on the tables of testCreateDeviceWithCodeExceptions each create reports the asserted outcome and each list has the asserted size |
| StorageScenarios.CreateDeviceWithCodeExceptions | src/test/java/io/supertokens/test/passwordless/PasswordlessStorageTest.java:81-150 | outcomes Ok, DuplicateCodeId, DuplicateDeviceIdHash, DuplicateLinkCodeHash, InvalidInput, Ok; email's device count stays 1 then grows to 2; device's code count stays 1; the second device is never stored by a failing call |
| StorageScenarios.CreateCodeExceptionsTables | src/test/java/io/supertokens/test/passwordless/PasswordlessStorageTest.java:173-227 | on the tables of testCreateCodeExceptions each create reports the asserted outcome and each list has the asserted size |
| StorageScenarios.CreateCodeExceptions | src/test/java/io/supertokens/test/passwordless/PasswordlessStorageTest.java:173-227 | outcomes UnknownDeviceIdHash, Ok, DuplicateCodeId, DuplicateLinkCodeHash, Ok; device counts 0 then 1; code counts 1, 1, 2; failed codes are not stored |
| StorageScenarios.CreateUserExceptionsTables | src/test/java/io/supertokens/test/passwordless/PasswordlessStorageTest.java:258-332 | on the tables of testCreateUserExceptions each create reports the asserted outcome and the new email and phone number find no user |
| StorageScenarios.CreateUserExceptions | src/test/java/io/supertokens/test/passwordless/PasswordlessStorageTest.java:258-332 | outcomes Ok, Ok, DuplicateUserId, DuplicateUserId, DuplicateEmail, DuplicatePhoneNumber, InvalidInput; no user appears under the new contacts or the new id |
| StorageScenarios.UpdateUserExceptionsTables | src/test/java/io/supertokens/test/passwordless/PasswordlessStorageTest.java:367-535 | on the four users of testUpdateUserExceptions each update reports the asserted outcome |
| StorageScenarios.UpdateUserExceptions | src/test/java/io/supertokens/test/passwordless/PasswordlessStorageTest.java:367-535 | updates of a missing user fail with UnknownUserId and create no one; taking another's email or phone fails, the user reads back unchanged, and a repeat fails identically |
| StorageScenarios.CheckUser | src/test/java/io/supertokens/test/passwordless/PasswordlessStorageTest.java:894-908 | reads the user back; when the user has an email (phone number) the lookup by it is exactly that user, otherwise it is empty |
| StorageScenarios.SoleUserUpdates | src/test/java/io/supertokens/test/passwordless/PasswordlessStorageTest.java:564-621 | the only user of a store may set or clear either contact, and the result is that user with the contact replaced |
| StorageScenarios.UpdateUserSequence | src/test/java/io/supertokens/test/passwordless/PasswordlessStorageTest.java:564-621 | every update succeeds; the user reads back as (email2, none), (none, phone), (none, phone2), (email, none) and each current contact finds exactly that user |
| StorageScenarios.DeleteDeviceCascadesTables | src/test/java/io/supertokens/test/passwordless/PasswordlessStorageTest.java:643-646 | both creates succeed and the device then owns exactly the two codes |
| StorageScenarios.DeleteDeviceCascades | src/test/java/io/supertokens/test/passwordless/PasswordlessStorageTest.java:643-656 | after deleting the device, it and both of its codes are gone |
| StorageScenarios.TwoDevicesTables | src/test/java/io/supertokens/test/passwordless/PasswordlessStorageTest.java:681-682 | two unrelated devices can both be created, and each then owns only its own code |
| StorageScenarios.DeleteDevicesByEmailCascades | src/test/java/io/supertokens/test/passwordless/PasswordlessStorageTest.java:681-696 | deleting by the first email leaves 0 devices for it and 1 for the other email; the first device and code are gone, the second ones remain |
| StorageScenarios.DeleteDevicesByPhoneNumberCascades | src/test/java/io/supertokens/test/passwordless/PasswordlessStorageTest.java:721-736 | deleting by the first phone number leaves 0 devices for it and 1 for the other; the first device and code are gone, the second ones remain |
| StorageScenarios.RunLockingCall | src/test/java/io/supertokens/test/passwordless/PasswordlessStorageTest.java:759-767 | each locking call, committed or not, only removes devices and codes: no device or code is added or altered, users untouched; an uncommitted call changes nothing |
| StorageScenarios.ClearDevices | src/test/java/io/supertokens/test/passwordless/PasswordlessStorageTest.java:783-789 | deleting by email then by phone number empties a store whose devices are all scoped to one of the two, codes included |
| StorageScenarios.RecreateAfterBulkDelete | src/test/java/io/supertokens/test/passwordless/PasswordlessStorageTest.java:772-791 | all 32 creations of the 4 × 4 loop succeed, because each round's clean-up empties the store, for every combination of the two locking transactions being kept or dropped |

## Left out

- Process lifecycle and environment are not modelled. This covers the testing process, its states, the reset before each test and the storage-type guard. They are infrastructure.
- Concurrency is not modelled: the threads, `synchronized`, wait/notify and the join timeout of `checkLockingCalls`. The model is sequential, so the blocking that `testLocking` checks is outside it. Only the calls' effects on the tables are kept.
- RunLockingCall: the two locking transactions never commit in the test, and whether their work persists depends on the hidden engine. The `committed` parameter covers both cases, and the method then promises only that no device or code is added or altered, not which ones are removed.
- Random id generation is not modelled. Ids and hashes are caller-chosen strings, and each scenario's `requires` states the distinctness the test relies on.
- A transaction becomes the sequence of its calls. The exception wrapping is dropped. A multi-call transaction whose later call fails has no rollback of the earlier call, because no test exercises that case.
- Timestamps (`timeJoined`, `createdAt`), the device's link-code salt and tenant or app identifiers are not modelled. None of them carries asserted behaviour, and one tenant suffices.
- The SQL storage implementation is not part of this model. This model is derived from the test's assertions.
- Lookups return sets of keys, not arrays of records, so their order is not modelled. Equality of a looked-up user with the user read by id is modelled as equality of ids.
- Tables.CreateDeviceWithCodeCheck: the test only ever collides on one key at a time, so the error reported for several simultaneous collisions is not pinned. The model reports InvalidInput first, then DuplicateDeviceIdHash, DuplicateCodeId and DuplicateLinkCodeHash, and its contract promises completeness only for single collisions.
- Tables.CreateCodeCheck, Tables.CreateUserCheck: likewise, with order UnknownDeviceIdHash, DuplicateCodeId, DuplicateLinkCodeHash, and InvalidInput, DuplicateUserId, DuplicateEmail, DuplicatePhoneNumber.
- Tables.CreateDeviceWithCodeCheck: a device with both an email and a phone number is refused as InvalidInput, following the storage's design that a device is scoped to exactly one contact. The test itself only exercises the case with neither.
- The store invariant does not require a stored user to have a contact. Only creation demands one. `testUpdateUser` clears the email before setting the phone number inside one transaction, so an intermediate state has neither.
