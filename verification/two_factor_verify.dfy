/** The 2FA verification route (`POST`): a sequence of guarded early
    returns, then the acceptance of a backup code or a TOTP code, the
    consumption of a used backup code and, on request, a trusted device.

    The session's email, the request's `code` and `trustDevice`, the
    `user-agent` and `x-forwarded-for` headers and the clock are inputs; TOTP
    verification (`verifyTOTP`) and SHA-256 (`createDeviceFingerprint`) are
    functions passed in. */
module TwoFactorVerify {
  import opened Wrappers
  import opened Seqs
  import opened Strings
  import opened TwoFactor

  /** The route's answers. */
  datatype Reply = Success | Unauthorized | CodeRequired | NotEnabled | InvalidCode | Failed

  function StatusCode(r: Reply): nat
  {
    match r
    case Success => 200
    case Unauthorized => 401
    case CodeRequired => 400
    case NotEnabled => 400
    case InvalidCode => 400
    case Failed => 500
  }

  /** What the guards and the acceptance test decide before anything is written. */
  datatype Decision =
    | Reject(reply: Reply)
    | AcceptBackup(email: string, data: User2FAData)
    | AcceptTotp(email: string, data: User2FAData)

  /** The guard sequence: no session email gives 401; then a missing code
      400; then a missing or disabled record 400. A code is accepted exactly
      when its upper-cased form is one of the backup codes (checked first) or
      TOTP accepts it against the secret; otherwise 400. */
  function Decide(sessionEmail: Option<string>, code: Option<string>,
    records: map<string, User2FAData>, totp: (string, string) -> bool): (d: Decision)
    ensures !Given(sessionEmail) <==> d == Reject(Unauthorized)
    ensures Given(sessionEmail) && !Given(code) <==> d == Reject(CodeRequired)
    ensures d == Reject(NotEnabled) <==> (Given(sessionEmail) && Given(code) &&
      (sessionEmail.value !in records || !records[sessionEmail.value].enabled))
    ensures !d.Reject? <==> (Given(sessionEmail) && Given(code) && sessionEmail.value in records &&
      var data := records[sessionEmail.value];
      data.enabled && (ToUpper(code.value) in data.backupCodes || totp(code.value, data.secret)))
    ensures d.AcceptBackup? ==> ToUpper(code.value) in d.data.backupCodes
    ensures !d.Reject? ==> d.email == sessionEmail.value && d.data == records[d.email]
    ensures d.Reject? ==> StatusCode(d.reply) != 200
  {
    if !Given(sessionEmail) then Reject(Unauthorized)
    else if !Given(code) then Reject(CodeRequired)
    else
      var email := sessionEmail.value;
      if email !in records || !records[email].enabled then Reject(NotEnabled)
      else
        var data := records[email];
        var isBackupCode := ToUpper(code.value) in data.backupCodes;
        if isBackupCode then AcceptBackup(email, data)
        else if totp(code.value, data.secret) then AcceptTotp(email, data)
        else Reject(InvalidCode)
  }

  /** `data.backupCodes.filter(c => c !== code.toUpperCase())`: every
      occurrence of the used code is gone and every other code is kept, in
      order. */
  function Consume(codes: seq<string>, code: string): (r: seq<string>)
    ensures ToUpper(code) !in r
    ensures forall i :: 0 <= i < |codes| && codes[i] != ToUpper(code) ==> codes[i] in r
    ensures forall c :: c in r ==> c in codes
    ensures |r| < |codes| <==> ToUpper(code) in codes
  {
    var used := ToUpper(code);
    var r := Filter(codes, (c: string) => c != used);
    FilterKeepsAll(codes, (c: string) => c != used);
    r
  }

  /** 30 days in milliseconds. */
  const TrustPeriodMs: int := 30 * 24 * 60 * 60 * 1000

  /** `headersList.get(name) || "unknown"` */
  function HeaderOr(h: Option<string>): (r: string)
    ensures r != ""
  {
    if Given(h) then h.value else "unknown"
  }

  /** The device the route trusts: fingerprinted by `sha256(userAgent + "-" + ip)`,
      named by the first 100 characters of the user agent, created now and
      expiring 30 days later. */
  function NewDevice(userAgent: Option<string>, ip: Option<string>, sha256: string -> string, now: int): (d: TrustedDevice)
    ensures d.createdAt == now && d.expiresAt == now + TrustPeriodMs
    ensures d.fingerprint == sha256(HeaderOr(userAgent) + "-" + HeaderOr(ip))
    ensures |d.deviceName| == (if |HeaderOr(userAgent)| <= 100 then |HeaderOr(userAgent)| else 100)
    ensures d.deviceName <= HeaderOr(userAgent)
  {
    var ua := HeaderOr(userAgent);
    var name := if |ua| <= 100 then ua else ua[..100];
    TrustedDevice(sha256(ua + "-" + HeaderOr(ip)), name, now, now + TrustPeriodMs)
  }

  /** The route with `store2FAData` resolved: a rejection answers its error
      and writes nothing; an accepted backup code is removed from the stored
      record; an accepted TOTP code leaves the record alone; with
      `trustDevice` the new device is stored, trusted until 30 days from
      now; and the answer is 200. */
  method Verify(store: TwoFactorStore, sessionEmail: Option<string>, code: Option<string>, trustDevice: bool,
    totp: (string, string) -> bool, userAgent: Option<string>, ip: Option<string>, sha256: string -> string, now: int)
    returns (reply: Reply)
    modifies store
    ensures var d := Decide(sessionEmail, code, old(store.records), totp);
      && (d.Reject? ==> reply == d.reply && store.records == old(store.records) && store.devices == old(store.devices))
      && (!d.Reject? ==> reply == Success)
      && (d.AcceptBackup? ==>
            store.records == old(store.records)[d.email := d.data.(backupCodes := Consume(d.data.backupCodes, code.value))])
      && (d.AcceptTotp? ==> store.records == old(store.records))
      && (!d.Reject? && !trustDevice ==> store.devices == old(store.devices))
      && (!d.Reject? && trustDevice ==>
            store.devices == old(store.devices)[d.email := WithDevice(old(store.DevicesOf(d.email)), NewDevice(userAgent, ip, sha256, now), now)])
    ensures var d := Decide(sessionEmail, code, old(store.records), totp);
      !d.Reject? && trustDevice ==> forall t :: now <= t < now + TrustPeriodMs ==>
        store.IsDeviceTrusted(d.email, NewDevice(userAgent, ip, sha256, now).fingerprint, t)
  {
    ghost var d := Decide(sessionEmail, code, store.records, totp);
    if !Given(sessionEmail) {
      return Unauthorized;
    }
    if !Given(code) {
      return CodeRequired;
    }
    var email := sessionEmail.value;
    var data := store.Get2FAData(email);
    if data.None? || !data.value.enabled {
      return NotEnabled;
    }
    var isBackupCode := ToUpper(code.value) in data.value.backupCodes;
    var isValid := isBackupCode || totp(code.value, data.value.secret);
    if !isValid {
      return InvalidCode;
    }
    if isBackupCode {
      var updatedBackupCodes := Consume(data.value.backupCodes, code.value);
      store.Store2FAData(email, data.value.(backupCodes := updatedBackupCodes));
    }
    if trustDevice {
      var device := NewDevice(userAgent, ip, sha256, now);
      ghost var before := store.DevicesOf(email);
      store.StoreTrustedDevice(email, device, now);
      forall t | now <= t < now + TrustPeriodMs
        ensures store.IsDeviceTrusted(email, device.fingerprint, t)
      {
        WithDeviceTrust(before, device, now, t, device.fingerprint);
      }
    }
    reply := Success;
  }

  /** The route as written: `store2FAData` is called on the backup-code path
      but the module does not import it, so that call throws, the `catch`
      answers 500, and neither the backup code nor a trusted device is
      stored. The other paths behave as in `Verify`. */
  method VerifyAsWritten(store: TwoFactorStore, sessionEmail: Option<string>, code: Option<string>, trustDevice: bool,
    totp: (string, string) -> bool, userAgent: Option<string>, ip: Option<string>, sha256: string -> string, now: int)
    returns (reply: Reply)
    modifies store
    ensures var d := Decide(sessionEmail, code, old(store.records), totp);
      && (d.Reject? ==> reply == d.reply && store.records == old(store.records) && store.devices == old(store.devices))
      && (d.AcceptBackup? ==> reply == Failed && store.records == old(store.records) && store.devices == old(store.devices))
      && (d.AcceptTotp? ==> reply == Success && store.records == old(store.records))
      && (d.AcceptTotp? && !trustDevice ==> store.devices == old(store.devices))
      && (d.AcceptTotp? && trustDevice ==> store.devices == old(store.devices)[d.email :=
            WithDevice(old(store.DevicesOf(d.email)), NewDevice(userAgent, ip, sha256, now), now)])
  {
    if !Given(sessionEmail) {
      return Unauthorized;
    }
    if !Given(code) {
      return CodeRequired;
    }
    var email := sessionEmail.value;
    var data := store.Get2FAData(email);
    if data.None? || !data.value.enabled {
      return NotEnabled;
    }
    var isBackupCode := ToUpper(code.value) in data.value.backupCodes;
    var isValid := isBackupCode || totp(code.value, data.value.secret);
    if !isValid {
      return InvalidCode;
    }
    if isBackupCode {
      // The unresolved `store2FAData` throws here.
      return Failed;
    }
    if trustDevice {
      var device := NewDevice(userAgent, ip, sha256, now);
      store.StoreTrustedDevice(email, device, now);
    }
    reply := Success;
  }

  /** A valid backup code, typed in lower case, is accepted as a backup code:
      the route as written answers 500 for it, while `Verify` answers 200 and
      removes the code. */
  lemma BackupCodeReachesMissingImport(totp: (string, string) -> bool)
    ensures var records := map["member@example.dk" := User2FAData("SECRET", true, ["ABCD1234", "EF567890"])];
      var d := Decide(Some("member@example.dk"), Some("abcd1234"), records, totp);
      && d.AcceptBackup?
      && Consume(d.data.backupCodes, "abcd1234") == ["EF567890"]
  {
    var upper := ToUpper("abcd1234");
    assert upper == "ABCD1234" by {
      assert |upper| == 8;
      forall i | 0 <= i < 8 ensures upper[i] == "ABCD1234"[i] {
        assert upper[i] == UpperChar("abcd1234"[i]);
      }
    }
    var codes := ["ABCD1234", "EF567890"];
    var kept := Consume(codes, "abcd1234");
    assert "ABCD1234" != "EF567890";
    assert kept == Filter(codes, (c: string) => c != upper);
    assert codes[..1] == ["ABCD1234"];
    assert kept == ["EF567890"];
  }
}
