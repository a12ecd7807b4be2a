/**
 * Secret keys, the random master token, AES-256-GCM framing and the device
 * auth tokens (src-tauri/src/security.rs).
 *
 * The cipher, base64 and UTF-8 come from `Primitives.Library`. Random bytes
 * and clock readings are parameters: a key is built from the 32 bytes the
 * operating system's generator filled in, a ciphertext from the 12-byte
 * nonce it drew, a token from the Unix time at which it was made.
 */
module Security {
  import opened Wrappers
  import opened Primitives
  import opened Models

  const NONCE_SIZE: nat := 12
  const KEY_SIZE: nat := 32

  type Nonce = s: seq<byte> | |s| == NONCE_SIZE witness seq(12, _ => 0)
  type KeyMaterial = s: seq<byte> | |s| == KEY_SIZE witness seq(32, _ => 0)

  /** A paired device as the registry stores it. */
  datatype AuthorizedDevice = AuthorizedDevice(
    device_id: string,
    device_name: string,
    device_model: Option<string>,
    paired_at: string,
    last_seen: string)

  /** `AuthorizedDevice::new`: both time stamps are the same reading of the clock. */
  function NewAuthorizedDevice(deviceId: string, deviceName: string, deviceModel: Option<string>, now: string)
    : (d: AuthorizedDevice)
    ensures d.device_id == deviceId && d.device_name == deviceName && d.device_model == deviceModel
    ensures d.paired_at == now && d.last_seen == d.paired_at
  {
    AuthorizedDevice(deviceId, deviceName, deviceModel, now, now)
  }

  /** Why `encrypt` or `decrypt` failed; the messages are only logged. */
  datatype CryptoError = InvalidSecretKey | WrongKeyLength | InvalidData | TooShort | DecryptionFailed | InvalidUtf8

  // ---------------------------------------------------------------------
  // Keys
  // ---------------------------------------------------------------------

  /** The key a base64 secret stands for: it must decode, to exactly 32 bytes. */
  function KeyBytes(lib: Library, secretKey: string): (r: Result<KeyMaterial, CryptoError>)
    ensures r.Ok? <==> lib.base64Decode(secretKey).Some? && |lib.base64Decode(secretKey).value| == KEY_SIZE
    ensures r.Ok? ==> lib.base64Decode(secretKey) == Some(r.value)
  {
    match lib.base64Decode(secretKey)
    case None => Err(InvalidSecretKey)
    case Some(k) => if |k| != KEY_SIZE then Err(WrongKeyLength) else Ok(k)
  }

  /** `generate_secret_key`: 32 random bytes, base64-encoded. */
  function GenerateSecretKey(lib: Library, random: KeyMaterial): (key: string)
    ensures Lawful(lib) ==> KeyBytes(lib, key) == Ok(random)
  {
    lib.base64Encode(random)
  }

  // ---------------------------------------------------------------------
  // Master token (also `qr_service::generate_token`)
  // ---------------------------------------------------------------------

  const CHARSET: string := "ABCDEFGHIJKLMNOPQRSTUVWXYZ" + "abcdefghijklmnopqrstuvwxyz" + "0123456789"
  const TOKEN_LEN: nat := 32

  /** What `gen_range(0..CHARSET.len())` can return. */
  type CharsetIndex = i: nat | i < 62

  predicate IsAlphanumeric(c: char) {
    'A' <= c <= 'Z' || 'a' <= c <= 'z' || '0' <= c <= '9'
  }

  /** The code point of the character at `i` of the alphabet. */
  function CharsetCode(i: CharsetIndex): int {
    if i < 26 then 'A' as int + i else if i < 52 then 'a' as int + (i - 26) else '0' as int + (i - 52)
  }

  lemma CharsetAt(i: CharsetIndex)
    ensures |CHARSET| == 62
    ensures CHARSET[i] as int == CharsetCode(i) && IsAlphanumeric(CHARSET[i])
  {
  }

  /** `generate_master_token`: the character chosen by each of the 32 draws. */
  function GenerateMasterToken(draws: seq<CharsetIndex>): (token: string)
    requires |draws| == TOKEN_LEN
    ensures |token| == TOKEN_LEN
    ensures forall i :: 0 <= i < |token| ==> IsAlphanumeric(token[i])
  {
    seq(TOKEN_LEN, i requires 0 <= i < TOKEN_LEN =>
      CharsetAt(draws[i]);
      CHARSET[draws[i]])
  }

  /** Distinct draws give distinct tokens: the alphabet has no repeated character. */
  lemma MasterTokenInjective(d1: seq<CharsetIndex>, d2: seq<CharsetIndex>)
    requires |d1| == TOKEN_LEN && |d2| == TOKEN_LEN
    requires GenerateMasterToken(d1) == GenerateMasterToken(d2)
    ensures d1 == d2
  {
    forall i | 0 <= i < TOKEN_LEN
      ensures d1[i] == d2[i]
    {
      assert GenerateMasterToken(d1)[i] == GenerateMasterToken(d2)[i];
      CharsetAt(d1[i]);
      CharsetAt(d2[i]);
    }
  }

  // ---------------------------------------------------------------------
  // AES-256-GCM framing: base64(nonce ++ ciphertext)
  // ---------------------------------------------------------------------

  /** `encrypt`, with the nonce the generator drew. */
  function Encrypt(lib: Library, secretKey: string, plaintext: string, nonce: Nonce): (r: Result<string, CryptoError>)
    ensures r.Ok? <==> KeyBytes(lib, secretKey).Ok?
    ensures r.Err? ==> r.error == KeyBytes(lib, secretKey).error
    ensures Lawful(lib) && r.Ok? ==>
      var data := lib.base64Decode(r.value);
      && data.Some? && |data.value| >= NONCE_SIZE
      && data.value[..NONCE_SIZE] == nonce
      && data.value[NONCE_SIZE..] == lib.seal(KeyBytes(lib, secretKey).value, nonce, lib.utf8Encode(plaintext))
  {
    var key :- KeyBytes(lib, secretKey);
    var ciphertext := lib.seal(key, nonce, lib.utf8Encode(plaintext));
    var data := nonce + ciphertext;
    assert data[..NONCE_SIZE] == nonce && data[NONCE_SIZE..] == ciphertext;
    Ok(lib.base64Encode(data))
  }

  /** `decrypt`: the first 12 decoded bytes are the nonce, the rest the ciphertext. */
  function Decrypt(lib: Library, secretKey: string, encrypted: string): (r: Result<string, CryptoError>)
    ensures KeyBytes(lib, secretKey).Err? ==> r == Err(KeyBytes(lib, secretKey).error)
    ensures lib.base64Decode(encrypted).None? ==> r.Err?
    ensures (KeyBytes(lib, secretKey).Ok? && lib.base64Decode(encrypted).Some?
             && |lib.base64Decode(encrypted).value| < NONCE_SIZE) ==> r == Err(TooShort)
    ensures r.Ok? ==>
      && lib.base64Decode(encrypted).Some?
      && var data := lib.base64Decode(encrypted).value;
      && |data| >= NONCE_SIZE
      && lib.open(KeyBytes(lib, secretKey).value, data[..NONCE_SIZE], data[NONCE_SIZE..]).Some?
      && lib.utf8Decode(lib.open(KeyBytes(lib, secretKey).value, data[..NONCE_SIZE], data[NONCE_SIZE..]).value)
         == Some(r.value)
    ensures (KeyBytes(lib, secretKey).Ok? && lib.base64Decode(encrypted).Some?
             && var data := lib.base64Decode(encrypted).value;
             && |data| >= NONCE_SIZE
             && lib.open(KeyBytes(lib, secretKey).value, data[..NONCE_SIZE], data[NONCE_SIZE..]).Some?
             && lib.utf8Decode(lib.open(KeyBytes(lib, secretKey).value, data[..NONCE_SIZE], data[NONCE_SIZE..]).value).Some?)
            ==> r.Ok?
  {
    var key :- KeyBytes(lib, secretKey);
    var data :- match lib.base64Decode(encrypted) case None => Err(InvalidData) case Some(d) => Ok(d);
    if |data| < NONCE_SIZE then Err(TooShort)
    else
      var plain :- match lib.open(key, data[..NONCE_SIZE], data[NONCE_SIZE..])
        case None => Err(DecryptionFailed)
        case Some(p) => Ok(p);
      match lib.utf8Decode(plain)
      case None => Err(InvalidUtf8)
      case Some(s) => Ok(s)
  }

  /** Decrypting what was encrypted under the same valid key gives back the plaintext. */
  lemma DecryptEncrypt(lib: Library, secretKey: string, plaintext: string, nonce: Nonce)
    requires Lawful(lib) && KeyBytes(lib, secretKey).Ok?
    ensures Encrypt(lib, secretKey, plaintext, nonce).Ok?
    ensures Decrypt(lib, secretKey, Encrypt(lib, secretKey, plaintext, nonce).value) == Ok(plaintext)
  {
    var key := KeyBytes(lib, secretKey).value;
    var data := nonce + lib.seal(key, nonce, lib.utf8Encode(plaintext));
    assert data[..NONCE_SIZE] == nonce && data[NONCE_SIZE..] == lib.seal(key, nonce, lib.utf8Encode(plaintext));
    assert lib.open(key, nonce, lib.seal(key, nonce, lib.utf8Encode(plaintext))) == Some(lib.utf8Encode(plaintext));
  }

  // ---------------------------------------------------------------------
  // Text helpers: Rust's `{}` for i64 and `str::splitn`
  // ---------------------------------------------------------------------

  function DigitChar(d: nat): (c: char)
    requires d < 10
    ensures '0' <= c <= '9'
  {
    ('0' as int + d) as char
  }

  /** Decimal digits of `n`, most significant first, no leading zero. */
  function DecimalDigits(n: nat): (s: string)
    ensures |s| >= 1
    ensures forall i :: 0 <= i < |s| ==> '0' <= s[i] <= '9'
  {
    if n < 10 then [DigitChar(n)] else DecimalDigits(n / 10) + [DigitChar(n % 10)]
  }

  /** `format!("{}", x)` for an `i64`. */
  function I64ToString(x: I64): (s: string)
    ensures ':' !in s
  {
    var m: int := x;
    if m < 0 then "-" + DecimalDigits(-m) else DecimalDigits(m)
  }

  /** The pieces joined back with the separator between them. */
  function Join(parts: seq<string>, sep: char): string
    requires |parts| >= 1
  {
    if |parts| == 1 then parts[0] else parts[0] + [sep] + Join(parts[1..], sep)
  }

  /** The first position of `c` in `s`. */
  function FirstIndex(s: string, c: char): (r: Option<nat>)
    ensures r.None? <==> c !in s
    ensures r.Some? ==> r.value < |s| && s[r.value] == c && c !in s[..r.value]
  {
    if |s| == 0 then None
    else if s[0] == c then Some(0)
    else match FirstIndex(s[1..], c)
      case None => None
      case Some(i) =>
        assert s[..i + 1] == [s[0]] + s[1..][..i];
        Some(i + 1)
  }

  /**
   * `s.splitn(n, sep)`: at most `n` pieces, cut at the first `n - 1`
   * separators; the last piece keeps the rest of the text.
   */
  function SplitN(s: string, n: nat, sep: char): (parts: seq<string>)
    requires n >= 1
    ensures 1 <= |parts| <= n
    ensures Join(parts, sep) == s
    ensures forall i :: 0 <= i < |parts| - 1 ==> sep !in parts[i]
    ensures |parts| < n ==> sep !in parts[|parts| - 1]
    decreases n
  {
    if n == 1 then [s]
    else match FirstIndex(s, sep)
      case None => [s]
      case Some(i) =>
        var rest := SplitN(s[i + 1..], n - 1, sep);
        SplitNCons(s[..i], rest, n, sep);
        CutAt(s, i);
        [s[..i]] + rest
  }

  /** A text is the part before position `i`, the character there, and the part after. */
  lemma CutAt(s: string, i: nat)
    requires i < |s|
    ensures s[..i] + [s[i]] + s[i + 1..] == s
  {
  }

  /** A separator-free first piece in front of the pieces of the rest. */
  lemma SplitNCons(head: string, rest: seq<string>, n: nat, sep: char)
    requires n >= 2 && sep !in head && 1 <= |rest| <= n - 1
    requires forall i :: 0 <= i < |rest| - 1 ==> sep !in rest[i]
    requires |rest| < n - 1 ==> sep !in rest[|rest| - 1]
    ensures var parts := [head] + rest;
      && 1 <= |parts| <= n
      && Join(parts, sep) == head + [sep] + Join(rest, sep)
      && (forall i :: 0 <= i < |parts| - 1 ==> sep !in parts[i])
      && (|parts| < n ==> sep !in parts[|parts| - 1])
  {
    var parts := [head] + rest;
    assert parts[1..] == rest;
    forall i | 1 <= i < |parts|
      ensures parts[i] == rest[i - 1]
    {
    }
  }

  /** Cutting at a first separator after a piece that has none. */
  lemma SplitNAfter(a: string, rest: string, n: nat, sep: char)
    requires n >= 2 && sep !in a
    ensures SplitN(a + [sep] + rest, n, sep) == [a] + SplitN(rest, n - 1, sep)
  {
    var s := a + [sep] + rest;
    FirstIndexAfter(a, rest, sep);
    assert s[..|a|] == a;
    assert s[|a| + 1..] == rest;
  }

  /** The first separator after a piece that has none is the one right behind it. */
  lemma FirstIndexAfter(a: string, rest: string, sep: char)
    requires sep !in a
    ensures FirstIndex(a + [sep] + rest, sep) == Some(|a|)
  {
    var s := a + [sep] + rest;
    assert s[|a|] == sep;
    assert forall j :: 0 <= j < |a| ==> s[j] == a[j];
  }

  // ---------------------------------------------------------------------
  // Auth tokens
  // ---------------------------------------------------------------------

  const TOKEN_PREFIX: string := "scanlink"

  /**
   * The one id a token made for `deviceId` names: the id's text before its
   * first `:`, or the whole id when it has none.
   */
  function TokenOwner(deviceId: string): (owner: string)
    ensures ':' !in owner
    ensures owner == deviceId <==> ':' !in deviceId
    ensures owner != deviceId ==> |owner| < |deviceId| && deviceId == owner + [':'] + deviceId[|owner| + 1..]
  {
    match FirstIndex(deviceId, ':')
    case None => deviceId
    case Some(j) =>
      CutAt(deviceId, j);
      deviceId[..j]
  }

  /**
   * The plaintext of a token: `scanlink:<device id>:<unix time>`. It starts
   * with `scanlink:`, the token's owner and a `:`, and the owner is the
   * device id only when the id has no `:`.
   */
  function AuthTokenPayload(deviceId: string, timestamp: I64): (payload: string)
    ensures TOKEN_PREFIX + ":" + TokenOwner(deviceId) + ":" <= payload
  {
    TOKEN_PREFIX + ":" + deviceId + ":" + I64ToString(timestamp)
  }

  /** Cut by `splitn(3, ':')`, a token plaintext gives three pieces, the second being its owner. */
  lemma OwnerPieces(deviceId: string, timestamp: I64)
    ensures var parts := SplitN(AuthTokenPayload(deviceId, timestamp), 3, ':');
      |parts| == 3 && parts[0] == TOKEN_PREFIX && parts[1] == TokenOwner(deviceId)
  {
    var ts := I64ToString(timestamp);
    var owner := TokenOwner(deviceId);
    var rest := if owner == deviceId then ts else deviceId[|owner| + 1..] + [':'] + ts;
    assert deviceId + [':'] + ts == owner + [':'] + rest;
    assert AuthTokenPayload(deviceId, timestamp) == TOKEN_PREFIX + [':'] + (owner + [':'] + rest);
    SplitNAfter(TOKEN_PREFIX, owner + [':'] + rest, 3, ':');
    SplitNAfter(owner, rest, 2, ':');
  }

  /** `create_auth_token`: the encrypted payload, or the empty text when encryption fails. */
  function CreateAuthToken(lib: Library, deviceId: string, secretKey: string, now: I64, nonce: Nonce): (token: string)
    ensures KeyBytes(lib, secretKey).Err? ==> token == ""
    ensures Lawful(lib) ==> (token == "" <==> KeyBytes(lib, secretKey).Err?)
  {
    match Encrypt(lib, secretKey, AuthTokenPayload(deviceId, now), nonce)
    case Ok(t) => t
    case Err(_) => ""
  }

  /** The check on a decrypted plaintext: only the first two `:`-pieces are looked at. */
  predicate AcceptsPayload(payload: string, expectedDeviceId: string): (ok: bool)
    ensures ok ==> ':' !in expectedDeviceId
  {
    var parts := SplitN(payload, 3, ':');
    |parts| >= 2 && parts[0] == TOKEN_PREFIX && parts[1] == expectedDeviceId
  }

  /** `validate_auth_token`: the token decrypts and its plaintext passes the check. */
  function ValidateAuthToken(lib: Library, token: string, expectedDeviceId: string, secretKey: string): (valid: bool)
    ensures valid <==>
      Decrypt(lib, secretKey, token).Ok? && AcceptsPayload(Decrypt(lib, secretKey, token).value, expectedDeviceId)
  {
    match Decrypt(lib, secretKey, token)
    case Ok(payload) => AcceptsPayload(payload, expectedDeviceId)
    case Err(_) => false
  }

  /** A plaintext naming `deviceId`: `scanlink:<id>`, possibly followed by `:` and anything. */
  predicate NamesDevice(payload: string, deviceId: string) {
    payload == TOKEN_PREFIX + ":" + deviceId || TOKEN_PREFIX + ":" + deviceId + ":" <= payload
  }

  /** A plaintext that passes the check names the expected id. */
  lemma AcceptedPayloadNamesDevice(payload: string, deviceId: string)
    requires AcceptsPayload(payload, deviceId)
    ensures NamesDevice(payload, deviceId)
  {
    var parts := SplitN(payload, 3, ':');
    var head := TOKEN_PREFIX + ":" + deviceId;
    assert Join(parts, ':') == parts[0] + [':'] + Join(parts[1..], ':');
    if |parts| == 2 {
      assert Join(parts[1..], ':') == deviceId;
      assert payload == head;
    } else {
      assert parts[1..][1..] == [parts[2]];
      assert Join(parts[1..], ':') == deviceId + [':'] + parts[2];
      assert payload == (head + ":") + parts[2];
      assert (head + ":") <= payload;
    }
  }

  /** A plaintext naming an id without `:` passes the check for that id. */
  lemma NamingPayloadAccepted(payload: string, deviceId: string)
    requires ':' !in deviceId && NamesDevice(payload, deviceId)
    ensures AcceptsPayload(payload, deviceId)
  {
    var tail := payload[|TOKEN_PREFIX + ":" + deviceId|..];
    assert payload == TOKEN_PREFIX + [':'] + (deviceId + tail);
    SplitNAfter(TOKEN_PREFIX, deviceId + tail, 3, ':');
    if tail == [] {
      assert deviceId + tail == deviceId;
    } else {
      assert tail[0] == ':';
      assert deviceId + tail == deviceId + [':'] + tail[1..];
      SplitNAfter(deviceId, tail[1..], 2, ':');
    }
  }

  /**
   * For an id without `:`, a token validates exactly when it decrypts to a
   * plaintext naming that id; the time stamp is never read.
   */
  lemma ValidateAuthTokenIff(lib: Library, token: string, deviceId: string, secretKey: string)
    requires ':' !in deviceId
    ensures ValidateAuthToken(lib, token, deviceId, secretKey) <==>
      Decrypt(lib, secretKey, token).Ok? && NamesDevice(Decrypt(lib, secretKey, token).value, deviceId)
  {
    if Decrypt(lib, secretKey, token).Ok? {
      var payload := Decrypt(lib, secretKey, token).value;
      if AcceptsPayload(payload, deviceId) {
        AcceptedPayloadNamesDevice(payload, deviceId);
      }
      if NamesDevice(payload, deviceId) {
        NamingPayloadAccepted(payload, deviceId);
      }
    }
  }

  /** The three pieces of a token plaintext whose id has no `:`. */
  lemma PayloadPieces(deviceId: string, timestamp: I64)
    requires ':' !in deviceId
    ensures SplitN(AuthTokenPayload(deviceId, timestamp), 3, ':') == [TOKEN_PREFIX, deviceId, I64ToString(timestamp)]
  {
    var ts := I64ToString(timestamp);
    assert AuthTokenPayload(deviceId, timestamp) == TOKEN_PREFIX + [':'] + (deviceId + [':'] + ts);
    SplitNAfter(TOKEN_PREFIX, deviceId + [':'] + ts, 3, ':');
    SplitNAfter(deviceId, ts, 2, ':');
  }

  /**
   * A token made for a device validates for its owner, whatever its time
   * stamp: for the device's own id when that has no `:`.
   */
  lemma CreatedTokenValidates(lib: Library, deviceId: string, secretKey: string, now: I64, nonce: Nonce)
    requires Lawful(lib) && KeyBytes(lib, secretKey).Ok?
    ensures ValidateAuthToken(lib, CreateAuthToken(lib, deviceId, secretKey, now, nonce), TokenOwner(deviceId), secretKey)
    ensures ':' !in deviceId ==> ValidateAuthToken(lib, CreateAuthToken(lib, deviceId, secretKey, now, nonce), deviceId, secretKey)
  {
    DecryptEncrypt(lib, secretKey, AuthTokenPayload(deviceId, now), nonce);
    OwnerPieces(deviceId, now);
  }

  /** A token made for one device is refused for every id but its owner. */
  lemma CreatedTokenRejectsOtherDevice(lib: Library, deviceId: string, otherId: string, secretKey: string, now: I64, nonce: Nonce)
    requires Lawful(lib) && KeyBytes(lib, secretKey).Ok? && otherId != TokenOwner(deviceId)
    ensures !ValidateAuthToken(lib, CreateAuthToken(lib, deviceId, secretKey, now, nonce), otherId, secretKey)
  {
    DecryptEncrypt(lib, secretKey, AuthTokenPayload(deviceId, now), nonce);
    OwnerPieces(deviceId, now);
  }

  /** With a `:` in the id, the second piece of the plaintext is only the id's text before it. */
  lemma ColonPayloadRejected(deviceId: string, timestamp: I64)
    requires ':' in deviceId
    ensures !AcceptsPayload(AuthTokenPayload(deviceId, timestamp), deviceId)
  {
    OwnerPieces(deviceId, timestamp);
    assert TokenOwner(deviceId) != deviceId;
  }

  /**
   * An id containing `:` is cut short by `splitn`, so the token made for it
   * never validates for it: such a device pairs but can never reconnect.
   */
  lemma ColonDeviceTokenNeverValidates(lib: Library, deviceId: string, secretKey: string, now: I64, nonce: Nonce)
    requires Lawful(lib) && KeyBytes(lib, secretKey).Ok? && ':' in deviceId
    ensures !ValidateAuthToken(lib, CreateAuthToken(lib, deviceId, secretKey, now, nonce), deviceId, secretKey)
  {
    CreatedTokenRejectsOtherDevice(lib, deviceId, deviceId, secretKey, now, nonce);
  }

  /**
   * ... and it validates instead for the id before its first `:`: the token
   * of a device paired as `a:b` is accepted for a device `a`, since every
   * device shares the one key.
   */
  lemma ColonDeviceTokenValidatesForPrefix(lib: Library, prefix: string, suffix: string, secretKey: string, now: I64, nonce: Nonce)
    requires Lawful(lib) && KeyBytes(lib, secretKey).Ok? && ':' !in prefix
    ensures ValidateAuthToken(lib, CreateAuthToken(lib, prefix + ":" + suffix, secretKey, now, nonce), prefix, secretKey)
  {
    FirstIndexAfter(prefix, suffix, ':');
    assert TokenOwner(prefix + ":" + suffix) == prefix;
    CreatedTokenValidates(lib, prefix + ":" + suffix, secretKey, now, nonce);
  }

  /** The empty text `create_auth_token` returns on failure never validates. */
  lemma EmptyTokenNeverValidates(lib: Library, deviceId: string, secretKey: string)
    requires Lawful(lib)
    ensures !ValidateAuthToken(lib, "", deviceId, secretKey)
  {
  }

  /**
   * Under the authenticity assumption, a token that validates for an id
   * without `:` is exactly the encryption, under the server's key, of a
   * plaintext naming that id: a token cannot be altered or forged.
   */
  lemma ValidTokenIsGenuine(lib: Library, token: string, deviceId: string, secretKey: string)
    returns (nonce: Nonce, payload: string)
    requires Lawful(lib) && Authentic(lib) && ':' !in deviceId
    requires ValidateAuthToken(lib, token, deviceId, secretKey)
    ensures NamesDevice(payload, deviceId)
    ensures Encrypt(lib, secretKey, payload, nonce) == Ok(token)
  {
    ValidateAuthTokenIff(lib, token, deviceId, secretKey);
    payload := Decrypt(lib, secretKey, token).value;
    var key := KeyBytes(lib, secretKey).value;
    var data := lib.base64Decode(token).value;
    nonce := data[..NONCE_SIZE];
    var plain := lib.open(key, nonce, data[NONCE_SIZE..]).value;
    assert plain == lib.utf8Encode(payload);
    assert data[NONCE_SIZE..] == lib.seal(key, nonce, plain);
    assert data == nonce + data[NONCE_SIZE..];
    assert token == lib.base64Encode(data);
  }
}
