/** The Firestore documents behind the account, device and pairing callables, and
    every transaction the callables run on them as a function from store to store.

    Timestamps are milliseconds, the resolution at which the code compares them. */
module CloudStore {
  import opened Common

  type Uid = string
  type DeviceId = string
  type TokenId = string
  type Millis = int

  const TOKEN_LIFETIME_MS: Millis := 5 * 60000
  const RATE_LIMIT_WINDOW_MS: Millis := 60 * 60 * 1000
  const SEND_RATE_LIMIT_PER_HOUR: nat := 30
  const INACTIVE_ACCOUNT_MS: Millis := 90 * 24 * 60 * 60 * 1000

  /** `accounts/{uid}` */
  datatype AccountDoc = AccountDoc(createdAt: Millis, lastActiveAt: Millis, deviceCount: int)

  /** The path `accounts/{uid}/devices/{device}`. */
  datatype Key = Key(uid: Uid, device: DeviceId)

  /** `accounts/{uid}/devices/{device}`; an outer `None` is a field the document lacks. */
  datatype DeviceDoc = DeviceDoc(
    displayName: string,
    icon: string,
    fcmToken: Option<string>,
    platform: string,
    fingerprint: Option<Option<string>>,
    recentSendsAt: Option<seq<Millis>>)

  /** `joinTokens/{tokenId}` */
  datatype JoinTokenDoc = JoinTokenDoc(
    accountId: Uid,
    createdAt: Millis,
    expiresAt: Millis,
    consumedAt: Option<Millis>,
    issuingDeviceId: DeviceId)

  datatype Store = Store(
    accounts: map<Uid, AccountDoc>,
    devices: map<Key, DeviceDoc>,
    tokens: map<TokenId, JoinTokenDoc>)

  datatype RegisterInput = RegisterInput(
    device: DeviceId,
    displayName: string,
    icon: string,
    fcmToken: Option<string>,
    platform: string,
    fingerprint: Option<Option<string>>)

  datatype NewDevice = NewDevice(displayName: string, icon: string, fcmToken: Option<string>, platform: string)

  datatype JoinInput = JoinInput(tokenId: TokenId, device: DeviceId, newDevice: Option<NewDevice>)

  /** The two single-field edits that go through `patchDeviceField`. */
  datatype Patch = Rename(displayName: string) | SetIcon(icon: string)

  datatype PreviewDevice = PreviewDevice(displayName: string, icon: string, platform: string)

  datatype Failure =
    | AccountMissing
    | DeviceMissing
    | TokenNotFound
    | TokenConsumed
    | TokenExpired
    | OwnGroup
    | TargetMissing
    | NewDeviceMissing
    | QuotaExceeded
    | UpdateOfMissingDoc

  datatype Reply =
    | AccountCreated(created: bool)
    | AccountDeletion(found: bool)
    | DeviceRegistered(created: bool)
    | DevicePatched
    | DeviceRemoved(accountDeleted: bool)
    | TokenMinted(tokenId: TokenId, expiresAt: Millis)
    | Previewed(accountId: Uid, issuingDeviceId: DeviceId, tokenExpiresAt: Millis,
                devices: map<DeviceId, PreviewDevice>)
    | Joined(target: Uid, oldAccountDeleted: bool, hadSourceAccount: bool)
    | Notified(pushTo: Option<string>)
    | Rejected(failure: Failure)
    | Swept(count: nat)
    | Quiet

  /** The device documents of one account. */
  function Group(s: Store, uid: Uid): set<Key> {
    set k | k in s.devices && k.uid == uid
  }

  // ----- accounts.ts -----

  function CreateAccountTx(s: Store, uid: Uid, now: Millis): (Store, Reply) {
    if uid in s.accounts then (s, AccountCreated(false))
    else (s.(accounts := s.accounts[uid := AccountDoc(now, now, 0)]), AccountCreated(true))
  }

  /** `recursiveDelete(accountRef)`: the account document and its whole subtree. */
  function SweepAccountStep(s: Store, uid: Uid): Store {
    s.(accounts := s.accounts - {uid}, devices := s.devices - Group(s, uid))
  }

  /** `recursiveDelete(deviceRef)`: only that device document. */
  function SweepDeviceStep(s: Store, k: Key): Store {
    s.(devices := s.devices - {k})
  }

  // ----- devices.ts -----

  function FreshDevice(input: RegisterInput): DeviceDoc {
    DeviceDoc(input.displayName, input.icon, input.fcmToken, input.platform,
              Some(if input.fingerprint.Some? then input.fingerprint.value else None), None)
  }

  function RefreshedDevice(d: DeviceDoc, input: RegisterInput): DeviceDoc {
    var d1 := d.(fcmToken := input.fcmToken, platform := input.platform);
    if input.fingerprint.Some? then d1.(fingerprint := input.fingerprint) else d1
  }

  function RegisterDeviceTx(s: Store, uid: Uid, input: RegisterInput, now: Millis): (Store, Reply) {
    if uid !in s.accounts then (s, Rejected(AccountMissing))
    else
      var k := Key(uid, input.device);
      var account := s.accounts[uid].(lastActiveAt := now);
      if k in s.devices then
        (s.(devices := s.devices[k := RefreshedDevice(s.devices[k], input)],
            accounts := s.accounts[uid := account]),
         DeviceRegistered(false))
      else
        (s.(devices := s.devices[k := FreshDevice(input)],
            accounts := s.accounts[uid := account.(deviceCount := account.deviceCount + 1)]),
         DeviceRegistered(true))
  }

  function Patched(d: DeviceDoc, patch: Patch): DeviceDoc {
    match patch
    case Rename(name) => d.(displayName := name)
    case SetIcon(icon) => d.(icon := icon)
  }

  function PatchDeviceTx(s: Store, uid: Uid, device: DeviceId, patch: Patch, now: Millis): (Store, Reply) {
    var k := Key(uid, device);
    if k !in s.devices then (s, Rejected(DeviceMissing))
    else if uid !in s.accounts then (s, Rejected(UpdateOfMissingDoc))
    else
      (s.(devices := s.devices[k := Patched(s.devices[k], patch)],
          accounts := s.accounts[uid := s.accounts[uid].(lastActiveAt := now)]),
       DevicePatched)
  }

  function RemoveDeviceTx(s: Store, uid: Uid, device: DeviceId, now: Millis): (Store, Reply) {
    var k := Key(uid, device);
    if uid !in s.accounts then (s, Rejected(AccountMissing))
    else if k !in s.devices then (s, Rejected(DeviceMissing))
    else
      var account := s.accounts[uid];
      if account.deviceCount > 1 then
        (s.(devices := s.devices - {k},
            accounts := s.accounts[uid := account.(deviceCount := account.deviceCount - 1, lastActiveAt := now)]),
         DeviceRemoved(false))
      else
        (s.(devices := s.devices - {k}, accounts := s.accounts - {uid}), DeviceRemoved(true))
  }

  // ----- pairing.ts -----

  /** The checks `createJoinToken` makes before it mints a token; the write comes later. */
  function CreateJoinTokenCheck(s: Store, uid: Uid, device: DeviceId, now: Millis): Result<JoinTokenDoc, Failure> {
    if uid !in s.accounts then Err(AccountMissing)
    else if Key(uid, device) !in s.devices then Err(DeviceMissing)
    else Ok(JoinTokenDoc(uid, now, now + TOKEN_LIFETIME_MS, None, device))
  }

  /** The three checks preview and join share, in the order they are made. */
  function LookupToken(s: Store, tokenId: TokenId, now: Millis): Result<JoinTokenDoc, Failure> {
    if tokenId !in s.tokens then Err(TokenNotFound)
    else if s.tokens[tokenId].consumedAt.Some? then Err(TokenConsumed)
    else if s.tokens[tokenId].expiresAt <= now then Err(TokenExpired)
    else Ok(s.tokens[tokenId])
  }

  function ListForPreview(s: Store, uid: Uid): map<DeviceId, PreviewDevice> {
    map k | k in Group(s, uid) :: k.device :=
      PreviewDevice(s.devices[k].displayName, s.devices[k].icon, s.devices[k].platform)
  }

  function PreviewJoinToken(s: Store, tokenId: TokenId, now: Millis): Reply {
    match LookupToken(s, tokenId, now)
    case Err(e) => Rejected(e)
    case Ok(token) =>
      Previewed(token.accountId, token.issuingDeviceId, token.expiresAt, ListForPreview(s, token.accountId))
  }

  function WelcomeDevice(n: NewDevice): DeviceDoc {
    DeviceDoc(n.displayName, n.icon, n.fcmToken, n.platform, None, None)
  }

  /** What `joinNetwork` checks and writes besides the token itself: the caller's device moves
      from `source` to `target`, and a source account it was the last device of is deleted. */
  function MoveDevice(s: Store, source: Uid, target: Uid, input: JoinInput, now: Millis): (Store, Reply) {
    var sourceKey := Key(source, input.device);
    var hasSource := source in s.accounts;
    if source == target then (s, Rejected(OwnGroup))
    else if target !in s.accounts then (s, Rejected(TargetMissing))
    else if hasSource && sourceKey !in s.devices then (s, Rejected(DeviceMissing))
    else if !hasSource && input.newDevice.None? then (s, Rejected(NewDeviceMissing))
    else
      var moved := if hasSource then s.devices[sourceKey] else WelcomeDevice(input.newDevice.value);
      var kept := if hasSource then s.devices - {sourceKey} else s.devices;
      var into := s.accounts[target];
      var joined := s.accounts[target := into.(deviceCount := into.deviceCount + 1, lastActiveAt := now)];
      var s' := s.(devices := kept[Key(target, input.device) := moved]);
      if !hasSource then (s'.(accounts := joined), Joined(target, false, false))
      else if s.accounts[source].deviceCount > 1 then
        var from := s.accounts[source];
        var left := from.(deviceCount := from.deviceCount - 1, lastActiveAt := now);
        (s'.(accounts := joined[source := left]), Joined(target, false, true))
      else
        (s'.(accounts := joined - {source}), Joined(target, true, true))
  }

  function JoinNetworkTx(s: Store, source: Uid, input: JoinInput, now: Millis): (Store, Reply) {
    match LookupToken(s, input.tokenId, now)
    case Err(e) => (s, Rejected(e))
    case Ok(token) =>
      var (s', r) := MoveDevice(s, source, token.accountId, input, now);
      if r.Joined? then (s'.(tokens := s.tokens[input.tokenId := token.(consumedAt := Some(now))]), r) else (s, r)
  }

  /** The guards of a join, as far as a caller can read them beforehand. */
  predicate JoinAllowed(s: Store, uid: Uid, input: JoinInput, now: Millis) {
    && input.tokenId in s.tokens
    && s.tokens[input.tokenId].consumedAt.None?
    && now < s.tokens[input.tokenId].expiresAt
    && s.tokens[input.tokenId].accountId in s.accounts
    && uid != s.tokens[input.tokenId].accountId
    && (if uid in s.accounts then Key(uid, input.device) in s.devices else input.newDevice.Some?)
  }

  // ----- rate-limit.ts -----

  /** The timestamps strictly after `cutoff`, in order. */
  function After(sends: seq<Millis>, cutoff: Millis): (r: seq<Millis>) {
    if sends == [] then []
    else if sends[0] > cutoff then [sends[0]] + After(sends[1..], cutoff)
    else After(sends[1..], cutoff)
  }

  function Sends(d: DeviceDoc): seq<Millis> {
    if d.recentSendsAt.Some? then d.recentSendsAt.value else []
  }

  function ConsumeSendQuota(existing: Option<seq<Millis>>, now: Millis): Result<seq<Millis>, Failure> {
    var trimmed := After(if existing.Some? then existing.value else [], now - RATE_LIMIT_WINDOW_MS);
    if |trimmed| >= SEND_RATE_LIMIT_PER_HOUR then Err(QuotaExceeded) else Ok(trimmed + [now])
  }

  // ----- transfer-notify.ts -----

  /** The push token a notification goes to; null and empty both count as none. */
  function PushTarget(d: DeviceDoc): Option<string> {
    if d.fcmToken == Some("") then None else d.fcmToken
  }

  function NotifyTx(s: Store, uid: Uid, source: DeviceId, target: DeviceId, now: Millis): (Store, Reply) {
    var sourceKey, targetKey := Key(uid, source), Key(uid, target);
    if sourceKey !in s.devices then (s, Rejected(DeviceMissing))
    else if targetKey !in s.devices then (s, Rejected(DeviceMissing))
    else
      var quota := ConsumeSendQuota(s.devices[sourceKey].recentSendsAt, now);
      if quota.Err? then (s, Rejected(quota.error))
      else if uid !in s.accounts then (s, Rejected(UpdateOfMissingDoc))
      else
        (s.(devices := s.devices[sourceKey := s.devices[sourceKey].(recentSendsAt := Some(quota.value))],
            accounts := s.accounts[uid := s.accounts[uid].(lastActiveAt := now)]),
         Notified(PushTarget(s.devices[targetKey])))
  }

  // ----- scheduled.ts -----

  function ExpiredTokens(s: Store, now: Millis): set<TokenId> {
    set t | t in s.tokens && s.tokens[t].expiresAt <= now
  }

  function InactiveAccounts(s: Store, now: Millis): set<Uid> {
    set u | u in s.accounts && s.accounts[u].lastActiveAt <= now - INACTIVE_ACCOUNT_MS
  }
}
