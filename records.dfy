/** The records of the passwordless-login storage contract and the typed
    outcomes of its operations. Identifiers and hashes are opaque strings
    chosen by the caller; timestamps and the device's link-code salt carry
    no behaviour in the contract and are not part of the records. */
module Records {

  datatype Option<+T> = None | Some(value: T)

  type DeviceIdHash = string
  type CodeId = string
  type LinkCodeHash = string
  type UserId = string
  type Email = string
  type PhoneNumber = string

  /** One login attempt, keyed by the hash of a device-side secret and
      scoped to an email or to a phone number. */
  datatype Device = Device(deviceIdHash: DeviceIdHash, email: Option<Email>, phoneNumber: Option<PhoneNumber>)

  /** One OTP / magic-link code issued against the device `deviceIdHash`. */
  datatype Code = Code(id: CodeId, deviceIdHash: DeviceIdHash, linkCodeHash: LinkCodeHash)

  /** A user's passwordless login method: an optional email and an
      optional phone number. */
  datatype User = User(userId: UserId, email: Option<Email>, phoneNumber: Option<PhoneNumber>)

  /** What a storage call reports: `Ok`, or the typed reason it failed
      (the exception the storage throws). */
  datatype Outcome =
    | Ok
    | InvalidInput
    | DuplicateDeviceIdHash
    | DuplicateCodeId
    | DuplicateLinkCodeHash
    | UnknownDeviceIdHash
    | DuplicateUserId
    | DuplicateEmail
    | DuplicatePhoneNumber
    | UnknownUserId

  /** A device is scoped to an email or to a phone number, never both and
      never neither. */
  predicate ExactlyOneContact(email: Option<Email>, phoneNumber: Option<PhoneNumber>)
  {
    email.Some? != phoneNumber.Some?
  }
}
