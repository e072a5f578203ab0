/** The two-factor authentication store: per email, a record with the TOTP
    secret, the enabled flag and the unused backup codes (under
    "2fa:" + email), and the list of trusted devices (under
    "trusted-devices:" + email). The two key spaces never meet, since the
    prefixes differ in their first character, so the store is two maps keyed
    by email. "Now" is an input in milliseconds; random bytes, SHA-256 and
    TOTP are functions passed in. */
module TwoFactor {
  import opened Wrappers
  import opened Seqs
  import opened Strings

  datatype User2FAData = User2FAData(secret: string, enabled: bool, backupCodes: seq<string>)

  datatype TrustedDevice = TrustedDevice(fingerprint: string, deviceName: string, createdAt: int, expiresAt: int)

  /** `d.expiresAt > now` */
  function Unexpired(now: int): TrustedDevice -> bool
  {
    (d: TrustedDevice) => d.expiresAt > now
  }

  /** `d.fingerprint !== fingerprint` */
  function OtherThan(fingerprint: string): TrustedDevice -> bool
  {
    (d: TrustedDevice) => d.fingerprint != fingerprint
  }

  /** `devices.filter(d => d.expiresAt > now)`: the devices still valid at
      `now`, in their stored order. */
  function Pruned(ds: seq<TrustedDevice>, now: int): (r: seq<TrustedDevice>)
    ensures forall i :: 0 <= i < |r| ==> r[i].expiresAt > now
    ensures forall i :: 0 <= i < |ds| && ds[i].expiresAt > now ==> ds[i] in r
    ensures forall d :: d in r ==> d in ds
  {
    Filter(ds, Unexpired(now))
  }

  /** `devices.some(d => d.fingerprint === fingerprint && d.expiresAt > now)` */
  function AnyTrusted(ds: seq<TrustedDevice>, fingerprint: string, now: int): (r: bool)
    ensures r <==> exists i :: 0 <= i < |ds| && ds[i].fingerprint == fingerprint && ds[i].expiresAt > now
  {
    if ds == [] then false
    else
      var last := ds[|ds| - 1];
      assert forall i :: 0 <= i < |ds| - 1 ==> ds[..|ds| - 1][i] == ds[i];
      AnyTrusted(ds[..|ds| - 1], fingerprint, now) || (last.fingerprint == fingerprint && last.expiresAt > now)
  }

  /** Pruning at `now` forgets only devices that are not trusted at any
      later time: trust from `now` on is that of the unpruned list. */
  lemma PruneKeepsTrust(ds: seq<TrustedDevice>, now: int, later: int, fingerprint: string)
    requires now <= later
    ensures AnyTrusted(Pruned(ds, now), fingerprint, later) <==> AnyTrusted(ds, fingerprint, later)
  {
    if AnyTrusted(ds, fingerprint, later) {
      var i :| 0 <= i < |ds| && ds[i].fingerprint == fingerprint && ds[i].expiresAt > later;
      var r := Pruned(ds, now);
      assert ds[i] in r;
      var k :| 0 <= k < |r| && r[k] == ds[i];
    }
  }

  /** The list `storeTrustedDevice` writes: the old devices still valid at
      `now`, in order, then the new device. */
  function WithDevice(ds: seq<TrustedDevice>, device: TrustedDevice, now: int): (r: seq<TrustedDevice>)
    ensures |r| >= 1 && r[|r| - 1] == device && r[..|r| - 1] == Pruned(ds, now)
  {
    Pruned(ds, now) + [device]
  }

  /** After storing, a device is trusted from `now` on exactly when it was
      trusted before or it is the new device and has not expired. */
  lemma WithDeviceTrust(ds: seq<TrustedDevice>, device: TrustedDevice, now: int, later: int, fingerprint: string)
    requires now <= later
    ensures AnyTrusted(WithDevice(ds, device, now), fingerprint, later) <==>
      AnyTrusted(ds, fingerprint, later) || (device.fingerprint == fingerprint && device.expiresAt > later)
  {
    var r := WithDevice(ds, device, now);
    assert r[..|r| - 1] == Pruned(ds, now);
    PruneKeepsTrust(ds, now, later, fingerprint);
  }

  /** `devices.filter(d => d.fingerprint !== fingerprint)`: every device with
      that fingerprint is gone, every other one kept, expired ones included,
      in order. */
  function WithoutFingerprint(ds: seq<TrustedDevice>, fingerprint: string): (r: seq<TrustedDevice>)
    ensures forall i :: 0 <= i < |r| ==> r[i].fingerprint != fingerprint
    ensures forall i :: 0 <= i < |ds| && ds[i].fingerprint != fingerprint ==> ds[i] in r
    ensures forall d :: d in r ==> d in ds
  {
    Filter(ds, OtherThan(fingerprint))
  }

  /** After removal the fingerprint is trusted nowhere, and every other
      fingerprint is trusted exactly as before. */
  lemma RemovalTrust(ds: seq<TrustedDevice>, removed: string, fingerprint: string, now: int)
    ensures !AnyTrusted(WithoutFingerprint(ds, removed), removed, now)
    ensures fingerprint != removed ==>
      (AnyTrusted(WithoutFingerprint(ds, removed), fingerprint, now) <==> AnyTrusted(ds, fingerprint, now))
  {
    var r := WithoutFingerprint(ds, removed);
    if fingerprint != removed && AnyTrusted(ds, fingerprint, now) {
      var i :| 0 <= i < |ds| && ds[i].fingerprint == fingerprint && ds[i].expiresAt > now;
      assert ds[i] in r;
      var k :| 0 <= k < |r| && r[k] == ds[i];
    }
    if AnyTrusted(r, fingerprint, now) {
      var k :| 0 <= k < |r| && r[k].fingerprint == fingerprint && r[k].expiresAt > now;
      assert r[k] in ds;
      var i :| 0 <= i < |ds| && ds[i] == r[k];
    }
  }

  /** A fingerprint is trusted exactly when the listed (unexpired) devices show it. */
  lemma TrustedIsListed(ds: seq<TrustedDevice>, fingerprint: string, now: int)
    ensures AnyTrusted(ds, fingerprint, now) <==>
      exists k :: 0 <= k < |Pruned(ds, now)| && Pruned(ds, now)[k].fingerprint == fingerprint
  {
    var r := Pruned(ds, now);
    if AnyTrusted(ds, fingerprint, now) {
      var i :| 0 <= i < |ds| && ds[i].fingerprint == fingerprint && ds[i].expiresAt > now;
      assert ds[i] in r;
      var k :| 0 <= k < |r| && r[k] == ds[i];
    }
    if exists k :: 0 <= k < |r| && r[k].fingerprint == fingerprint {
      var k :| 0 <= k < |r| && r[k].fingerprint == fingerprint;
      assert r[k] in ds;
      var i :| 0 <= i < |ds| && ds[i] == r[k];
      assert ds[i].expiresAt > now;
    }
  }

  /** The default of `generateBackupCodes(count = 8)`. */
  const DefaultBackupCodeCount: nat := 8

  /** `generateBackupCodes(count)`: `count` codes, eight when the argument
      is left out and none for a count below one; the i-th is the upper-cased
      hex of the i-th draw of four random bytes, `hexOfDraw(i)`. */
  method GenerateBackupCodes(count: Option<int>, hexOfDraw: nat -> string) returns (codes: seq<string>)
    ensures count.None? ==> |codes| == DefaultBackupCodeCount
    ensures count.Some? ==> |codes| == if count.value > 0 then count.value else 0
    ensures forall i :: 0 <= i < |codes| ==> codes[i] == ToUpper(hexOfDraw(i))
    ensures forall i, k :: 0 <= i < |codes| && 0 <= k < |codes[i]| ==> !('a' <= codes[i][k] <= 'z')
  {
    var n := if count.Some? then count.value else DefaultBackupCodeCount;
    codes := [];
    var i := 0;
    while i < n
      invariant 0 <= i <= (if n > 0 then n else 0)
      invariant |codes| == i
      invariant forall j :: 0 <= j < i ==> codes[j] == ToUpper(hexOfDraw(j))
    {
      codes := codes + [ToUpper(hexOfDraw(i))];
      i := i + 1;
    }
    forall i | 0 <= i < |codes| ensures forall k :: 0 <= k < |codes[i]| ==> !('a' <= codes[i][k] <= 'z') {
      var upper := ToUpper(hexOfDraw(i));
      assert codes[i] == upper;
    }
  }

  /** The key/value store as the 2FA helpers see it. */
  class TwoFactorStore {
    var records: map<string, User2FAData>
    var devices: map<string, seq<TrustedDevice>>

    constructor ()
      ensures records == map[] && devices == map[]
    {
      records := map[];
      devices := map[];
    }

    /** `get2FAData(email)`: the record, or null. */
    function Get2FAData(email: string): (r: Option<User2FAData>)
      reads this
      ensures r.Some? <==> email in records
      ensures r.Some? ==> r.value == records[email]
    {
      if email in records then Some(records[email]) else None
    }

    /** `is2FAEnabled(email)`: false without a record. */
    function Is2FAEnabled(email: string): (r: bool)
      reads this
      ensures email !in records ==> !r
      ensures r <==> email in records && records[email].enabled
    {
      var data := Get2FAData(email);
      data.Some? && data.value.enabled
    }

    /** `(await kv.get(key)) || []` */
    function DevicesOf(email: string): seq<TrustedDevice>
      reads this
    {
      if email in devices then devices[email] else []
    }

    /** `isDeviceTrusted(email, fingerprint)` at time `now`. */
    function IsDeviceTrusted(email: string, fingerprint: string, now: int): (r: bool)
      reads this
      ensures r <==> exists d :: d in DevicesOf(email) && d.fingerprint == fingerprint && d.expiresAt > now
    {
      var ds := DevicesOf(email);
      assert forall i :: 0 <= i < |ds| ==> ds[i] in ds;
      AnyTrusted(ds, fingerprint, now)
    }

    /** `getTrustedDevices(email)` at time `now`: the unexpired devices; the
        store is only read. */
    function GetTrustedDevices(email: string, now: int): (r: seq<TrustedDevice>)
      reads this
      ensures forall i :: 0 <= i < |r| ==> r[i].expiresAt > now && r[i] in DevicesOf(email)
      ensures forall d :: d in DevicesOf(email) && d.expiresAt > now ==> d in r
    {
      Pruned(DevicesOf(email), now)
    }

    /** `store2FAData(email, data)` */
    method Store2FAData(email: string, data: User2FAData)
      modifies this
      ensures records == old(records)[email := data]
      ensures devices == old(devices)
    {
      records := records[email := data];
    }

    /** `storeTrustedDevice(email, device)` at time `now`: prune the expired
        devices, append the new one, write the list back. */
    method StoreTrustedDevice(email: string, device: TrustedDevice, now: int)
      modifies this
      ensures devices == old(devices)[email := WithDevice(old(DevicesOf(email)), device, now)]
      ensures records == old(records)
    {
      var validDevices := Filter(DevicesOf(email), Unexpired(now));
      validDevices := validDevices + [device];
      devices := devices[email := validDevices];
    }

    /** `removeTrustedDevice(email, fingerprint)`: the filtered list is
        written back even when nothing was stored. */
    method RemoveTrustedDevice(email: string, fingerprint: string)
      modifies this
      ensures devices == old(devices)[email := WithoutFingerprint(old(DevicesOf(email)), fingerprint)]
      ensures records == old(records)
    {
      var updatedDevices := Filter(DevicesOf(email), OtherThan(fingerprint));
      devices := devices[email := updatedDevices];
    }

    /** `disable2FA(email)`: both keys of this email are deleted, nothing else. */
    method Disable2FA(email: string)
      modifies this
      ensures records == old(records) - {email}
      ensures devices == old(devices) - {email}
      ensures !Is2FAEnabled(email) && DevicesOf(email) == []
    {
      records := records - {email};
      devices := devices - {email};
    }
  }
}
