/** The Android app's device pairing: a single one-time pairing code with
    an expiry, pending pairing requests accepted with that code, the list of
    paired devices kept in preferences, and authentication tokens made of a
    timestamp and a keyed digest. Randomness, the clock, the digest and the
    cipher are parameters. */
module DevicePairing {
  import opened Wrappers
  import opened Text

  const PAIRING_CODE_LENGTH: nat := 6
  const PAIRING_CODE_EXPIRY: int := 300000
  const DEFAULT_MAX_AGE: int := 300000
  const LONG_MIN: int := -0x8000_0000_0000_0000
  const LONG_MAX: int := 0x7FFF_FFFF_FFFF_FFFF

  datatype PairingStatus = NotPaired | Pairing | Paired | Rejected

  datatype PairedDevice = PairedDevice(
    deviceId: string, deviceName: string, platform: string,
    pairingTime: int, lastConnectedTime: int, sharedSecret: string, isTrusted: bool)

  datatype PairingRequest = PairingRequest(
    requestId: string, deviceId: string, deviceName: string, platform: string,
    pairingCode: string, expiryTime: int, status: PairingStatus)

  // ---------------------------------------------------------------------------
  // Pairing codes

  /** The code spelled by the random draws `nextInt(10)`, one digit each. */
  function CodeOf(draws: seq<nat>): (code: string)
    requires forall i :: 0 <= i < |draws| ==> draws[i] < 10
    ensures |code| == |draws| && AllDigits(code)
    ensures forall i :: 0 <= i < |draws| ==> code[i] == DigitChar(draws[i])
  {
    if draws == [] then [] else [DigitChar(draws[0])] + CodeOf(draws[1..])
  }

  /** Draws of the random source for one code. */
  predicate CodeDraws(draws: seq<nat>)
  {
    |draws| == PAIRING_CODE_LENGTH && forall i :: 0 <= i < |draws| ==> draws[i] < 10
  }

  /** The only code that can be accepted, and when it stops being
      accepted. */
  datatype CodeState = CodeState(current: Option<string>, expiry: int)

  datatype Verdict = Verdict(ok: bool, after: CodeState)

  /** `verifyPairingCode(code)` at time `now`. */
  function VerifyCode(s: CodeState, code: string, now: int): (v: Verdict)
    ensures v.after.expiry == s.expiry
  {
    if s.current.None? then Verdict(false, s)
    else if now > s.expiry then Verdict(false, s.(current := None))
    else if Some(code) == s.current then Verdict(true, s.(current := None))
    else Verdict(false, s)
  }

  /** A code is accepted exactly when it is the current one and has not
      expired, and then (or once found expired) it is cleared; a wrong code
      leaves everything as it was. */
  lemma VerifyCodeCases(s: CodeState, code: string, now: int)
    ensures VerifyCode(s, code, now).ok <==> s.current == Some(code) && now <= s.expiry
    ensures s.current.None? ==> VerifyCode(s, code, now).after == s
    ensures s.current.Some? && now > s.expiry ==> VerifyCode(s, code, now).after.current == None
    ensures VerifyCode(s, code, now).ok ==> VerifyCode(s, code, now).after.current == None
    ensures s.current.Some? && now <= s.expiry && s.current != Some(code) ==> VerifyCode(s, code, now).after == s
  {
  }

  /** A code works once: the same code is refused the second time. */
  lemma OneTimeUse(s: CodeState, code: string, now: int, later: int)
    requires VerifyCode(s, code, now).ok
    ensures !VerifyCode(VerifyCode(s, code, now).after, code, later).ok
  {
  }

  /** A fresh code is six digits and is accepted until it expires. */
  lemma FreshCodeAccepted(draws: seq<nat>, now: int, at: int)
    requires CodeDraws(draws)
    ensures |CodeOf(draws)| == 6 && AllDigits(CodeOf(draws))
    ensures VerifyCode(CodeState(Some(CodeOf(draws)), now + PAIRING_CODE_EXPIRY), CodeOf(draws), at).ok
            <==> at <= now + PAIRING_CODE_EXPIRY
  {
  }

  // ---------------------------------------------------------------------------
  // Paired devices

  /** `getPairedDevices().find { it.deviceId == id }` */
  function FindDevice(ds: seq<PairedDevice>, id: string): (r: Option<PairedDevice>)
    ensures r.Some? ==> r.value in ds && r.value.deviceId == id
    ensures r.None? <==> forall i :: 0 <= i < |ds| ==> ds[i].deviceId != id
  {
    if ds == [] then None else if ds[0].deviceId == id then Some(ds[0]) else FindDevice(ds[1..], id)
  }

  /** `removeAll { it.deviceId == id }` */
  function WithoutId(ds: seq<PairedDevice>, id: string): (r: seq<PairedDevice>)
    ensures |r| <= |ds|
    ensures forall d :: d in r <==> d in ds && d.deviceId != id
  {
    if ds == [] then [] else (if ds[0].deviceId == id then [] else [ds[0]]) + WithoutId(ds[1..], id)
  }

  /** At most one entry per device id. */
  predicate UniqueIds(ds: seq<PairedDevice>)
  {
    forall i, j :: 0 <= i < j < |ds| ==> ds[i].deviceId != ds[j].deviceId
  }

  /** `savePairedDevice(d)`: any entry for the same id removed, `d`
      appended. */
  function SaveDevice(ds: seq<PairedDevice>, d: PairedDevice): seq<PairedDevice>
  {
    WithoutId(ds, d.deviceId) + [d]
  }

  lemma {:induction false} WithoutIdUnique(ds: seq<PairedDevice>, id: string)
    requires UniqueIds(ds)
    ensures UniqueIds(WithoutId(ds, id))
  {
    if ds != [] {
      WithoutIdUnique(ds[1..], id);
      var rest := WithoutId(ds[1..], id);
      assert forall d :: d in rest ==> d in ds[1..];
      forall j | 0 <= j < |rest|
        ensures ds[0].deviceId != rest[j].deviceId
      {
        assert rest[j] in ds[1..];
      }
    }
  }

  /** Saving keeps one entry per device id, whatever was stored. */
  lemma SaveKeepsUnique(ds: seq<PairedDevice>, d: PairedDevice)
    requires UniqueIds(ds)
    ensures UniqueIds(SaveDevice(ds, d))
    ensures forall i :: 0 <= i < |SaveDevice(ds, d)| - 1 ==> SaveDevice(ds, d)[i].deviceId != d.deviceId
  {
    WithoutIdUnique(ds, d.deviceId);
    var w := WithoutId(ds, d.deviceId);
    forall i | 0 <= i < |w|
      ensures w[i].deviceId != d.deviceId
    {
      assert w[i] in w;
    }
  }

  lemma {:induction false} FindWithout(ds: seq<PairedDevice>, id: string, other: string)
    ensures FindDevice(WithoutId(ds, id), other) == if other == id then None else FindDevice(ds, other)
  {
    if ds != [] {
      FindWithout(ds[1..], id, other);
      var rest := WithoutId(ds[1..], id);
      if ds[0].deviceId != id {
        assert WithoutId(ds, id) == [ds[0]] + rest;
        assert ([ds[0]] + rest)[1..] == rest;
      } else {
        assert WithoutId(ds, id) == rest;
      }
    }
  }

  lemma {:induction false} FindAppend(ds: seq<PairedDevice>, d: PairedDevice, id: string)
    ensures FindDevice(ds + [d], id) == if FindDevice(ds, id).Some? then FindDevice(ds, id) else if d.deviceId == id then Some(d) else None
  {
    if ds != [] {
      assert (ds + [d])[1..] == ds[1..] + [d];
      FindAppend(ds[1..], d, id);
    } else {
      assert [d][1..] == [];
    }
  }

  /** After saving, the device's id finds the saved record, and every other
      id finds what it found before. */
  lemma SaveThenFind(ds: seq<PairedDevice>, d: PairedDevice, id: string)
    ensures FindDevice(SaveDevice(ds, d), id) == if id == d.deviceId then Some(d) else FindDevice(ds, id)
  {
    FindWithout(ds, d.deviceId, id);
    FindAppend(WithoutId(ds, d.deviceId), d, id);
  }

  /** Unpairing removes exactly the device's entries: it reports whether
      there were any, and nothing is found for the id afterwards. */
  lemma UnpairRemoves(ds: seq<PairedDevice>, id: string, other: string)
    ensures FindDevice(WithoutId(ds, id), other) == if other == id then None else FindDevice(ds, other)
    ensures |WithoutId(ds, id)| < |ds| <==> FindDevice(ds, id).Some?
  {
    FindWithout(ds, id, other);
    WithoutIdShorter(ds, id);
  }

  lemma {:induction false} WithoutIdShorter(ds: seq<PairedDevice>, id: string)
    ensures |WithoutId(ds, id)| < |ds| <==> FindDevice(ds, id).Some?
  {
    if ds != [] {
      WithoutIdShorter(ds[1..], id);
    }
  }

  // ---------------------------------------------------------------------------
  // Authentication tokens

  /** The text the digest is taken of. */
  function TokenData(deviceId: string, timestamp: int, secret: string): string
  {
    deviceId + ":" + IntToString(timestamp) + ":" + secret
  }

  /** `"$timestamp:${digest(data)}"`; `digest` stands for SHA-256 followed by
      Base64. */
  function AuthToken(deviceId: string, timestamp: int, secret: string, digest: string -> string): (t: string)
  {
    IntToString(timestamp) + ":" + digest(TokenData(deviceId, timestamp, secret))
  }

  /** `s.toLong()`: an optional sign and at least one decimal digit, within
      `Long`; anything else throws. */
  function ParseLong(s: string): (r: Option<int>)
    ensures r.Some? ==> LONG_MIN <= r.value <= LONG_MAX
  {
    var n := if |s| > 0 && (s[0] == '-' || s[0] == '+') then ParseNat(s[1..]) else ParseNat(s);
    if n.None? then None
    else
      var v: int := if |s| > 0 && s[0] == '-' then -(n.value as int) else n.value as int;
      if LONG_MIN <= v <= LONG_MAX then Some(v) else None
  }

  lemma ParseLongOfInt(t: int)
    requires LONG_MIN <= t <= LONG_MAX
    ensures ParseLong(IntToString(t)) == Some(t)
  {
    if t >= 0 {
      ParseNatToString(t);
      assert NatToString(t)[0] != '-' && NatToString(t)[0] != '+' by {
        assert IsDigit(NatToString(t)[0]);
      }
    } else {
      ParseNatToString(-t);
      assert IntToString(t)[1..] == NatToString(-t);
    }
  }

  /** `Long` subtraction wraps around. */
  function Wrap64(n: int): (r: int)
    ensures LONG_MIN <= r <= LONG_MAX
    ensures LONG_MIN <= n <= LONG_MAX ==> r == n
  {
    (n - LONG_MIN) % 0x1_0000_0000_0000_0000 + LONG_MIN
  }

  /** `verifyAuthToken(deviceId, token, maxAge)` at time `now`. */
  function TokenValid(ds: seq<PairedDevice>, deviceId: string, token: string, now: int, maxAge: int,
                      digest: string -> string): bool
  {
    match FindDevice(ds, deviceId)
    case None => false
    case Some(d) =>
      var parts := Split(token, ':');
      if |parts| != 2 then false
      else
        match ParseLong(parts[0])
        case None => false
        case Some(timestamp) =>
          if Wrap64(now - timestamp) > maxAge then false
          else parts[1] == digest(TokenData(deviceId, timestamp, d.sharedSecret))
  }

  /** A token is refused for an unpaired device, for anything but exactly
      two `:`-separated parts, for a timestamp that is not a `Long` and once
      (below) it is older than `maxAge`. */
  lemma TokenRefusals(ds: seq<PairedDevice>, deviceId: string, token: string, now: int, maxAge: int, digest: string -> string)
    ensures FindDevice(ds, deviceId).None? ==> !TokenValid(ds, deviceId, token, now, maxAge, digest)
    ensures |Split(token, ':')| != 2 ==> !TokenValid(ds, deviceId, token, now, maxAge, digest)
    ensures ParseLong(Split(token, ':')[0]).None? ==> !TokenValid(ds, deviceId, token, now, maxAge, digest)
  {
  }

  lemma TokenExpired(ds: seq<PairedDevice>, deviceId: string, token: string, now: int, maxAge: int, digest: string -> string, stamp: int)
    requires |Split(token, ':')| == 2 && ParseLong(Split(token, ':')[0]) == Some(stamp)
    requires LONG_MIN <= now - stamp <= LONG_MAX && now - stamp > maxAge
    ensures !TokenValid(ds, deviceId, token, now, maxAge, digest)
  {
  }

  lemma NoColonInInt(t: int)
    ensures ':' !in IntToString(t)
  {
    if t >= 0 {
      assert forall i :: 0 <= i < |NatToString(t)| ==> IsDigit(NatToString(t)[i]);
    } else {
      var s := NatToString(-t);
      assert forall i :: 0 <= i < |s| ==> IsDigit(s[i]);
      assert IntToString(t) == "-" + s;
    }
  }

  /** A token made for a paired device checks out until it is `maxAge` old,
      as long as the digest's text holds no `:` (Base64 never does). */
  lemma TokenRoundTrip(ds: seq<PairedDevice>, deviceId: string, made: int, now: int, maxAge: int, digest: string -> string)
    requires FindDevice(ds, deviceId).Some?
    requires LONG_MIN <= made <= LONG_MAX && LONG_MIN <= now - made <= LONG_MAX
    requires ':' !in digest(TokenData(deviceId, made, FindDevice(ds, deviceId).value.sharedSecret))
    ensures TokenValid(ds, deviceId, AuthToken(deviceId, made, FindDevice(ds, deviceId).value.sharedSecret, digest), now, maxAge, digest)
            <==> now - made <= maxAge
  {
    var secret := FindDevice(ds, deviceId).value.sharedSecret;
    var ts := IntToString(made);
    var h := digest(TokenData(deviceId, made, secret));
    NoColonInInt(made);
    SplitFirst(ts, h, ':');
    SplitNone(h, ':');
    assert AuthToken(deviceId, made, secret, digest) == ts + [':'] + h;
    ParseLongOfInt(made);
  }

  /** The age check wraps: a token stamped with the smallest `Long` is never
      too old. */
  lemma OldestStampNeverExpires(now: int, maxAge: int)
    requires 0 <= now <= LONG_MAX && 0 <= maxAge
    ensures Wrap64(now - LONG_MIN) < 0 <= maxAge
  {
  }

  // ---------------------------------------------------------------------------
  // The pairing state and its transitions

  datatype State = State(devices: seq<PairedDevice>, pending: map<string, PairingRequest>, code: CodeState)

  /** `generateRequestId()`: the time and the first eight characters of a
      random UUID. */
  function RequestId(now: int, uuid: string): string
  {
    "pairing_" + IntToString(now) + "_" + (if |uuid| <= 8 then uuid else uuid[..8])
  }

  /** The request `createPairingRequest` files, carrying the fresh code. */
  function NewRequest(requestId: string, deviceId: string, deviceName: string, platform: string, code: string, now: int): PairingRequest
  {
    PairingRequest(requestId, deviceId, deviceName, platform, code, now + PAIRING_CODE_EXPIRY, Pairing)
  }

  /** `createPairingRequest`: a fresh code replaces the current one and the
      request is filed under its id. */
  function Create(s: State, requestId: string, deviceId: string, deviceName: string, platform: string, code: string, now: int): (t: State)
    ensures t.devices == s.devices && t.code == CodeState(Some(code), now + PAIRING_CODE_EXPIRY)
    ensures t.pending == s.pending[requestId := NewRequest(requestId, deviceId, deviceName, platform, code, now)]
  {
    State(s.devices, s.pending[requestId := NewRequest(requestId, deviceId, deviceName, platform, code, now)],
          CodeState(Some(code), now + PAIRING_CODE_EXPIRY))
  }

  datatype Acceptance = Acceptance(ok: bool, next: State)

  /** The device record an accepted request becomes. */
  function DeviceOf(r: PairingRequest, now: int, secret: string): PairedDevice
  {
    PairedDevice(r.deviceId, r.deviceName, r.platform, now, now, secret, true)
  }

  /** `acceptPairingRequest(requestId, code)` at time `now`, with `secret` the
      freshly generated shared key. */
  function Accept(s: State, requestId: string, code: string, now: int, secret: string): (a: Acceptance)
  {
    if requestId !in s.pending then Acceptance(false, s)
    else
      var v := VerifyCode(s.code, code, now);
      if !v.ok then Acceptance(false, s.(code := v.after))
      else
        Acceptance(true, State(SaveDevice(s.devices, DeviceOf(s.pending[requestId], now, secret)),
                               s.pending - {requestId}, v.after))
  }

  /** An unknown request or a refused code leaves the devices and the
      pending requests alone; an accepted one pairs the request's device and
      files the request away. */
  lemma AcceptCases(s: State, requestId: string, code: string, now: int, secret: string)
    ensures var a := Accept(s, requestId, code, now, secret);
      (requestId !in s.pending ==> !a.ok && a.next == s)
      && (a.ok <==> requestId in s.pending && VerifyCode(s.code, code, now).ok)
      && (!a.ok ==> a.next.devices == s.devices && a.next.pending == s.pending)
  {
  }

  lemma AcceptPairs(s: State, requestId: string, code: string, now: int, secret: string)
    requires Accept(s, requestId, code, now, secret).ok
    ensures var a := Accept(s, requestId, code, now, secret);
      var r := s.pending[requestId];
      requestId !in a.next.pending
      && FindDevice(a.next.devices, r.deviceId) == Some(DeviceOf(r, now, secret))
      && (forall id :: id != r.deviceId ==> FindDevice(a.next.devices, id) == FindDevice(s.devices, id))
      && a.next.code.current == None
  {
    var r := s.pending[requestId];
    forall id
      ensures FindDevice(SaveDevice(s.devices, DeviceOf(r, now, secret)), id) == if id == r.deviceId then Some(DeviceOf(r, now, secret)) else FindDevice(s.devices, id)
    {
      SaveThenFind(s.devices, DeviceOf(r, now, secret), id);
    }
  }

  /** A second request replaces the code: the first request can no longer be
      accepted with its own code, but it can with the second one. */
  lemma StaleCodeRefused(s: State, idA: string, idB: string, devA: string, devB: string, codeA: string, codeB: string,
                         t1: int, t2: int, now: int, secret: string)
    requires idA != idB && codeA != codeB && now <= t2 + PAIRING_CODE_EXPIRY
    ensures var s2 := Create(Create(s, idA, devA, devA, "android", codeA, t1), idB, devB, devB, "android", codeB, t2);
      !Accept(s2, idA, codeA, now, secret).ok && idA in Accept(s2, idA, codeA, now, secret).next.pending
      && Accept(s2, idA, codeB, now, secret).ok
  {
  }

  // ---------------------------------------------------------------------------
  // The manager

  class DevicePairingManager {
    /** The paired-device list stored in preferences. */
    var devices: seq<PairedDevice>
    var pendingRequests: map<string, PairingRequest>
    var currentPairingCode: Option<string>
    var pairingCodeExpiry: int

    function Code(): CodeState
      reads this
    {
      CodeState(currentPairingCode, pairingCodeExpiry)
    }

    function Current(): State
      reads this
    {
      State(devices, pendingRequests, Code())
    }

    /** A manager over the devices already stored. */
    constructor (stored: seq<PairedDevice>)
      ensures Current() == State(stored, map[], CodeState(None, 0))
    {
      devices, pendingRequests := stored, map[];
      currentPairingCode, pairingCodeExpiry := None, 0;
    }

    /** `generatePairingCode()` from six random draws. */
    method GeneratePairingCode(draws: seq<nat>, now: int) returns (code: string)
      requires CodeDraws(draws)
      modifies this
      ensures code == CodeOf(draws) && |code| == PAIRING_CODE_LENGTH && AllDigits(code)
      ensures Code() == CodeState(Some(code), now + PAIRING_CODE_EXPIRY)
      ensures devices == old(devices) && pendingRequests == old(pendingRequests)
    {
      code := CodeOf(draws);
      currentPairingCode := Some(code);
      pairingCodeExpiry := now + PAIRING_CODE_EXPIRY;
    }

    /** `verifyPairingCode(code)` */
    method VerifyPairingCode(code: string, now: int) returns (ok: bool)
      modifies this
      ensures Verdict(ok, Code()) == VerifyCode(old(Code()), code, now)
      ensures devices == old(devices) && pendingRequests == old(pendingRequests)
    {
      if currentPairingCode == None {
        return false;
      }
      if now > pairingCodeExpiry {
        currentPairingCode := None;
        return false;
      }
      ok := Some(code) == currentPairingCode;
      if ok {
        currentPairingCode := None;
      }
    }

    /** `createPairingRequest(deviceId, deviceName, platform)`; `uuid` is the
        random UUID of the request id. */
    method CreatePairingRequest(deviceId: string, deviceName: string, platform: string, uuid: string,
                                draws: seq<nat>, now: int) returns (request: PairingRequest)
      requires CodeDraws(draws)
      modifies this
      ensures request == NewRequest(RequestId(now, uuid), deviceId, deviceName, platform, CodeOf(draws), now)
      ensures Current() == Create(old(Current()), RequestId(now, uuid), deviceId, deviceName, platform, CodeOf(draws), now)
    {
      var requestId := RequestId(now, uuid);
      var code := GeneratePairingCode(draws, now);
      request := PairingRequest(requestId, deviceId, deviceName, platform, code, pairingCodeExpiry, Pairing);
      pendingRequests := pendingRequests[requestId := request];
    }

    /** `acceptPairingRequest(requestId, code)`; `secret` is the shared key
        `generateSharedSecret()` draws. */
    method AcceptPairingRequest(requestId: string, code: string, now: int, secret: string) returns (ok: bool)
      modifies this
      ensures Acceptance(ok, Current()) == Accept(old(Current()), requestId, code, now, secret)
    {
      if requestId !in pendingRequests {
        return false;
      }
      var request := pendingRequests[requestId];
      var verified := VerifyPairingCode(code, now);
      if !verified {
        return false;
      }
      SavePairedDevice(PairedDevice(request.deviceId, request.deviceName, request.platform, now, now, secret, true));
      pendingRequests := pendingRequests - {requestId};
      ok := true;
    }

    /** `rejectPairingRequest(requestId)` */
    method RejectPairingRequest(requestId: string)
      modifies this
      ensures Current() == old(Current()).(pending := old(pendingRequests) - {requestId})
    {
      pendingRequests := pendingRequests - {requestId};
    }

    /** `isPaired(deviceId)` */
    method IsPaired(deviceId: string) returns (paired: bool)
      ensures paired <==> exists i :: 0 <= i < |devices| && devices[i].deviceId == deviceId
    {
      var d := FindDevice(devices, deviceId);
      paired := d.Some?;
      if paired {
        ghost var k :| 0 <= k < |devices| && devices[k] == d.value;
      }
    }

    /** `getPairedDevice(deviceId)`: the first entry for the id. */
    method GetPairedDevice(deviceId: string) returns (d: Option<PairedDevice>)
      ensures d == FindDevice(devices, deviceId)
    {
      var i := 0;
      while i < |devices|
        invariant 0 <= i <= |devices|
        invariant FindDevice(devices, deviceId) == FindDevice(devices[i..], deviceId)
      {
        if devices[i].deviceId == deviceId {
          return Some(devices[i]);
        }
        assert devices[i..][1..] == devices[i + 1..];
        i := i + 1;
      }
      return None;
    }

    /** `savePairedDevice(device)` */
    method SavePairedDevice(device: PairedDevice)
      modifies this
      ensures devices == SaveDevice(old(devices), device)
      ensures pendingRequests == old(pendingRequests) && Code() == old(Code())
    {
      devices := WithoutId(devices, device.deviceId) + [device];
    }

    /** `updateLastConnectedTime(deviceId)` */
    method UpdateLastConnectedTime(deviceId: string, now: int)
      modifies this
      ensures var d := FindDevice(old(devices), deviceId);
        devices == if d.None? then old(devices) else SaveDevice(old(devices), d.value.(lastConnectedTime := now))
      ensures pendingRequests == old(pendingRequests) && Code() == old(Code())
    {
      var d := GetPairedDevice(deviceId);
      if d.Some? {
        SavePairedDevice(d.value.(lastConnectedTime := now));
      }
    }

    /** `unpairDevice(deviceId)`: whether an entry was removed. */
    method UnpairDevice(deviceId: string) returns (removed: bool)
      modifies this
      ensures removed <==> FindDevice(old(devices), deviceId).Some?
      ensures devices == WithoutId(old(devices), deviceId)
      ensures pendingRequests == old(pendingRequests) && Code() == old(Code())
    {
      var rest := WithoutId(devices, deviceId);
      WithoutIdShorter(devices, deviceId);
      removed := |rest| < |devices|;
      if removed {
        devices := rest;
      } else {
        WithoutIdSame(devices, deviceId);
      }
    }

    /** `setDeviceTrusted(deviceId, trusted)` */
    method SetDeviceTrusted(deviceId: string, trusted: bool)
      modifies this
      ensures var d := FindDevice(old(devices), deviceId);
        devices == if d.None? then old(devices) else SaveDevice(old(devices), d.value.(isTrusted := trusted))
      ensures pendingRequests == old(pendingRequests) && Code() == old(Code())
    {
      var d := GetPairedDevice(deviceId);
      if d.Some? {
        SavePairedDevice(d.value.(isTrusted := trusted));
      }
    }

    /** `encryptMessage(deviceId, message)` (and `decryptMessage` with the
        inverse cipher): nothing for an unpaired device, otherwise what the
        cipher makes of the message under the device's shared secret. */
    method CipherMessage(deviceId: string, message: string, cipher: (string, string) -> Option<string>) returns (r: Option<string>)
      ensures FindDevice(devices, deviceId).None? ==> r == None
      ensures FindDevice(devices, deviceId).Some? ==> r == cipher(FindDevice(devices, deviceId).value.sharedSecret, message)
    {
      var d := GetPairedDevice(deviceId);
      if d.None? {
        return None;
      }
      r := cipher(d.value.sharedSecret, message);
    }

    /** `generateAuthToken(deviceId)` */
    method GenerateAuthToken(deviceId: string, now: int, digest: string -> string) returns (token: Option<string>)
      ensures var d := FindDevice(devices, deviceId);
        token == if d.None? then None else Some(AuthToken(deviceId, now, d.value.sharedSecret, digest))
    {
      var d := GetPairedDevice(deviceId);
      if d.None? {
        return None;
      }
      token := Some(IntToString(now) + ":" + digest(deviceId + ":" + IntToString(now) + ":" + d.value.sharedSecret));
    }

    /** `verifyAuthToken(deviceId, token, maxAge)` */
    method VerifyAuthToken(deviceId: string, token: string, now: int, maxAge: int, digest: string -> string) returns (ok: bool)
      ensures ok == TokenValid(devices, deviceId, token, now, maxAge, digest)
    {
      var d := GetPairedDevice(deviceId);
      if d.None? {
        return false;
      }
      var parts := Split(token, ':');
      if |parts| != 2 {
        return false;
      }
      var timestamp := ParseLong(parts[0]);
      if timestamp.None? {
        return false;
      }
      if Wrap64(now - timestamp.value) > maxAge {
        return false;
      }
      ok := parts[1] == digest(TokenData(deviceId, timestamp.value, d.value.sharedSecret));
    }

    /** `clearAllPairings()` */
    method ClearAllPairings()
      modifies this
      ensures Current() == State([], map[], CodeState(None, old(pairingCodeExpiry)))
    {
      devices, pendingRequests := [], map[];
      currentPairingCode := None;
    }
  }

  lemma {:induction false} WithoutIdSame(ds: seq<PairedDevice>, id: string)
    requires FindDevice(ds, id).None?
    ensures WithoutId(ds, id) == ds
  {
    if ds != [] {
      WithoutIdSame(ds[1..], id);
    }
  }
}
