/**
 * What the hub publishes about the latest change (`Status`), the closed
 * taxonomy of external-change reasons (`ChangeReason`) and how both are read
 * out of a store-change notification's `userInfo`.
 */
module SyncStatus {
  import opened Wrappers
  import opened UserDefaults

  /** Raw codes of the platform's NSUbiquitousKeyValueStore change reasons. */
  const ServerChangeCode: int := 0
  const InitialSyncChangeCode: int := 1
  const QuotaViolationChangeCode: int := 2
  const AccountChangeCode: int := 3

  /** The userInfo keys a change notification carries. */
  const ChangeReasonKey: string := "NSUbiquitousKeyValueStoreChangeReasonKey"
  const ChangedKeysKey: string := "NSUbiquitousKeyValueStoreChangedKeysKey"

  datatype ChangeReason = ServerChange | InitialSyncChange | QuotaViolationChange | AccountChange

  /** The platform code a reason is decoded from. */
  function Code(reason: ChangeReason): int {
    match reason
    case ServerChange => ServerChangeCode
    case InitialSyncChange => InitialSyncChangeCode
    case QuotaViolationChange => QuotaViolationChangeCode
    case AccountChange => AccountChangeCode
  }

  /**
   * `ChangeReason.init?(rawValue:)`: the four known codes decode to the four
   * cases, every other code to nil (the development-build assertion failure is
   * not modelled).
   */
  function DecodeReason(raw: int): (r: Option<ChangeReason>)
    ensures r.Some? <==> raw in {ServerChangeCode, InitialSyncChangeCode, QuotaViolationChangeCode, AccountChangeCode}
    ensures r.Some? ==> Code(r.value) == raw
  {
    if raw == ServerChangeCode then Some(ServerChange)
    else if raw == InitialSyncChangeCode then Some(InitialSyncChange)
    else if raw == QuotaViolationChangeCode then Some(QuotaViolationChange)
    else if raw == AccountChangeCode then Some(AccountChange)
    else None
  }

  /** Every reason is recovered from its code, so the four codes are distinct. */
  lemma DecodeCode(reason: ChangeReason)
    ensures DecodeReason(Code(reason)) == Some(reason)
  {
  }

  datatype Source = Initial | LocalChange | ExternalChange(reason: Option<ChangeReason>)

  /** The latest change: when, where it came from, and the keys it touched. */
  datatype Status = Status(date: Date, source: Source, keys: seq<string>)

  /** A value found in a notification's userInfo dictionary. */
  datatype InfoValue = IntInfo(i: int) | KeysInfo(keys: seq<string>) | OtherInfo

  /** A store-change notification; `userInfo` itself may be missing. */
  datatype Notification = Notification(userInfo: Option<map<string, InfoValue>>)

  /** `userInfo?[ChangeReasonKey] as? Int ?? -1` */
  function ReasonCode(n: Notification): (raw: int)
    ensures n.userInfo.Some? && ChangeReasonKey in n.userInfo.value && n.userInfo.value[ChangeReasonKey].IntInfo?
            ==> raw == n.userInfo.value[ChangeReasonKey].i
    ensures raw != -1 ==> n.userInfo.Some? && ChangeReasonKey in n.userInfo.value
                          && n.userInfo.value[ChangeReasonKey] == IntInfo(raw)
  {
    match n.userInfo
    case Some(info) =>
      if ChangeReasonKey in info && info[ChangeReasonKey].IntInfo? then info[ChangeReasonKey].i else -1
    case None => -1
  }

  /** `userInfo?[ChangedKeysKey] as? [String] ?? []` */
  function ChangedKeys(n: Notification): (keys: seq<string>)
    ensures n.userInfo.Some? && ChangedKeysKey in n.userInfo.value && n.userInfo.value[ChangedKeysKey].KeysInfo?
            ==> keys == n.userInfo.value[ChangedKeysKey].keys
    ensures keys != [] ==> n.userInfo.Some? && ChangedKeysKey in n.userInfo.value
                           && n.userInfo.value[ChangedKeysKey] == KeysInfo(keys)
  {
    match n.userInfo
    case Some(info) =>
      if ChangedKeysKey in info && info[ChangedKeysKey].KeysInfo? then info[ChangedKeysKey].keys else []
    case None => []
  }

  /** A notification without a usable reason yields an unknown reason. */
  lemma MissingReasonIsUnknown(n: Notification)
    requires n.userInfo.None? || ChangeReasonKey !in n.userInfo.value || !n.userInfo.value[ChangeReasonKey].IntInfo?
    ensures DecodeReason(ReasonCode(n)).None?
  {
  }
}
