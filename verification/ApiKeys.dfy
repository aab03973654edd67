// internal/auth/apikeys.go: tokens opi_<key id>_<secret>, made, parsed, masked
// and verified.
module ApiKeys {
  import opened ByteStrings
  import opened Wrappers
  import Base64
  import Passwords
  import Text

  const API_KEY_PREFIX := "opi_"
  const KEY_ID_LEN: nat := 8
  const SECRET_LEN: nat := 32

  datatype Error = NoUser | NoName | BadLength | NoEntropy | FewLetters | Hashing(cause: Passwords.HashError)

  // One call to the random source, by the number of bytes asked for.
  type Source = nat -> Option<Bytes>

  ghost predicate Fills(src: Source) {
    forall n :: src(n).Some? ==> |src(n).value| == n
  }

  // The calls that making one key needs: for its id, for a second try, for the secret.
  datatype Draws = Draws(id: Source, retry: Source, secret: Source)

  // RandomToken
  function RandomToken(nBytes: int, src: Source): Result<string, Error> {
    if nBytes <= 0 then Err(BadLength)
    else
      match src(nBytes)
      case None => Err(NoEntropy)
      case Some(b) => Ok(Base64.Encode(Base64.Url, b))
  }

  // A token decodes to the bytes that were drawn, and has 4 characters for 3 of them.
  lemma TokenDecodes(nBytes: int, src: Source)
    requires RandomToken(nBytes, src).Ok? && Fills(src)
    ensures var r := RandomToken(nBytes, src).value;
            && nBytes > 0 && Base64.InAlphabet(Base64.Url, r) && Base64.Decode(Base64.Url, r) == src(nBytes)
            && |r| == (4 * nBytes + 2) / 3
  {
    Base64.EncodeInAlphabet(Base64.Url, src(nBytes).value);
    Base64.EncodeDecode(Base64.Url, src(nBytes).value);
  }

  // ------------------------------------------------------------------
  // Key ids
  // ------------------------------------------------------------------

  predicate IsKeyChar(c: char) { 'a' <= c <= 'z' || '0' <= c <= '9' }

  function Lower(c: char): char
    requires 'A' <= c <= 'Z'
  {
    (c as int + 32) as char
  }

  function KeyChar(c: char): Option<char> {
    if IsKeyChar(c) then Some(c)
    else if 'A' <= c <= 'Z' then Some(Lower(c))
    else None
  }

  // The letters and digits of a text, in lower case.
  function KeyChars(s: string): (r: string)
    ensures |r| <= |s| && forall i :: 0 <= i < |r| ==> IsKeyChar(r[i])
  {
    if s == [] then []
    else
      var k := KeyChars(s[..|s| - 1]);
      match KeyChar(s[|s| - 1])
      case None => k
      case Some(c) => k + [c]
  }

  lemma {:induction false} KeyCharsGrow(s: string, i: nat)
    requires i <= |s|
    ensures KeyChars(s[..i]) <= KeyChars(s)
    decreases |s|
  {
    assert s[..|s|] == s;
    if i < |s| {
      KeyCharsGrow(s[..|s| - 1], i);
      assert s[..|s| - 1][..i] == s[..i];
    }
  }

  lemma KeyCharsStep(s: string, i: nat)
    requires 0 < i <= |s|
    ensures var c, k := s[i - 1], KeyChars(s[..i - 1]);
            KeyChars(s[..i]) == if IsKeyChar(c) then k + [c] else if 'A' <= c <= 'Z' then k + [Lower(c)] else k
  {
    assert s[..i][..i - 1] == s[..i - 1];
  }

  lemma StepOnto(k: string, s: string, i: nat)
    requires 0 < i <= |s|
    ensures var c, out := s[i - 1], k + KeyChars(s[..i - 1]);
            k + KeyChars(s[..i]) ==
            if IsKeyChar(c) then out + [c] else if 'A' <= c <= 'Z' then out + [Lower(c)] else out
  {
    KeyCharsStep(s, i);
  }

  // randomKeyID as a function.
  function KeyId(n: int, d: Draws): Result<string, Error> {
    var t := RandomToken(n * 2 + 2, d.id);
    if t.Err? then t else Pick(n, KeyChars(t.value), RandomToken(n * 4, d.retry))
  }

  // The first n characters of what was drawn, with a second draw if needed; all of
  // them for n == 0.
  function Pick(n: int, k: string, retry: Result<string, Error>): Result<string, Error> {
    if n <= 0 then Ok(k)
    else if |k| >= n then Ok(k[..n])
    else if retry.Err? then retry
    else
      var all := k + KeyChars(retry.value);
      if |all| < n then Err(FewLetters) else Ok(all[..n])
  }

  lemma KeyIdPicks(n: int, d: Draws)
    ensures var t := RandomToken(n * 2 + 2, d.id);
            KeyId(n, d) == if t.Err? then t else Pick(n, KeyChars(t.value), RandomToken(n * 4, d.retry))
  {
  }

  // The first n characters, or all if there are fewer.
  function Most(n: nat, s: string): string { if |s| < n then s else s[..n] }

  lemma MostIs(n: nat, k: string, raw: string, i: nat)
    requires i <= |raw| && |k| <= n && |k + KeyChars(raw[..i])| <= n
    requires |k + KeyChars(raw[..i])| < n ==> i == |raw|
    ensures k + KeyChars(raw[..i]) == Most(n, k + KeyChars(raw))
  {
    KeyCharsGrow(raw, i);
    assert raw[..|raw|] == raw;
  }

  // The first loop, which stops right after the n-th character.
  method FirstLoop(n: nat, raw: string) returns (out: string)
    ensures out == if n == 0 then KeyChars(raw) else Most(n, KeyChars(raw))
  {
    out := "";
    var i := 0;
    while i < |raw|
      invariant 0 <= i <= |raw|
      invariant out == KeyChars(raw[..i])
      invariant n > 0 ==> |out| < n
    {
      var c := raw[i];
      i := i + 1;
      KeyCharsStep(raw, i);
      if IsKeyChar(c) {
        out := out + [c];
        if |out| == n {
          break;
        }
      } else if 'A' <= c <= 'Z' {
        out := out + [Lower(c)];
        if |out| == n {
          break;
        }
      }
    }
    if n > 0 {
      assert "" + out == out && "" + KeyChars(raw) == KeyChars(raw);
      MostIs(n, "", raw, i);
    } else {
      assert raw[..i] == raw;
    }
  }

  // The second loop goes on with what the first one left.
  method SecondLoop(n: nat, k: string, raw: string) returns (out: string)
    requires |k| < n
    ensures out == Most(n, k + KeyChars(raw))
  {
    out := k;
    var i := 0;
    while i < |raw|
      invariant 0 <= i <= |raw|
      invariant out == k + KeyChars(raw[..i])
      invariant |out| < n
    {
      var c := raw[i];
      i := i + 1;
      StepOnto(k, raw, i);
      if IsKeyChar(c) {
        out := out + [c];
      } else if 'A' <= c <= 'Z' {
        out := out + [Lower(c)];
      }
      if |out| == n {
        break;
      }
    }
    MostIs(n, k, raw, i);
  }

  // randomKeyID
  method RandomKeyId(n: int, d: Draws) returns (r: Result<string, Error>)
    ensures r == KeyId(n, d)
  {
    KeyIdPicks(n, d);
    var t := RandomToken(n * 2 + 2, d.id);
    if t.Err? {
      return t;
    }
    var out := FirstLoop(n, t.value);
    if |out| < n {
      t := RandomToken(n * 4, d.retry);
      if t.Err? {
        return t;
      }
      out := SecondLoop(n, out, t.value);
      if |out| < n {
        return Err(FewLetters);
      }
    }
    return Ok(out);
  }

  // An id has exactly the length asked for, in [a-z0-9], whichever loop filled it,
  // and there is none exactly if a draw fails or both draws have too few letters.
  lemma KeyIdShape(n: int, d: Draws)
    requires n >= 1
    ensures KeyId(n, d).Ok? ==>
              |KeyId(n, d).value| == n && forall i :: 0 <= i < n ==> IsKeyChar(KeyId(n, d).value[i])
    ensures KeyId(n, d).Ok? <==>
            && d.id(n * 2 + 2).Some?
            && var k := KeyChars(Base64.Encode(Base64.Url, d.id(n * 2 + 2).value));
               || |k| >= n
               || (d.retry(n * 4).Some? && |k| + |KeyChars(Base64.Encode(Base64.Url, d.retry(n * 4).value))| >= n)
  {
  }

  lemma {:induction false} NoKeyChars(s: string)
    requires Base64.InAlphabet(Base64.Url, s)
    ensures KeyChars(s) == [] <==> forall i :: 0 <= i < |s| ==> s[i] == '-' || s[i] == '_'
  {
    if s != [] {
      NoKeyChars(s[..|s| - 1]);
      assert KeyChar(s[|s| - 1]).None? <==> s[|s| - 1] == '-' || s[|s| - 1] == '_';
    }
  }

  // For n == 0 the loop never stops early: everything drawn comes back, which is the
  // empty id only if there was no letter or digit in it.
  lemma KeyIdOfNone(d: Draws)
    requires d.id(2).Some?
    ensures var raw := Base64.Encode(Base64.Url, d.id(2).value);
            && KeyId(0, d).Ok?
            && (KeyId(0, d).value == [] <==> forall i :: 0 <= i < |raw| ==> raw[i] == '-' || raw[i] == '_')
  {
    Base64.EncodeInAlphabet(Base64.Url, d.id(2).value);
    NoKeyChars(RandomToken(2, d.id).value);
  }

  // ------------------------------------------------------------------
  // Making a key
  // ------------------------------------------------------------------

  // Times count from Go's zero time.
  type Time = nat

  datatype Row = Row(id: string, keyId: string, hash: string, userId: string, name: string, scopes: seq<string>,
                     createdAt: Time, expiresAt: Option<Time>, revokedAt: Option<Time>)

  datatype NewKey = NewKey(plainToken: string, record: Row)

  function Token(keyId: string, secret: string): string { API_KEY_PREFIX + keyId + ['_'] + secret }

  // GenerateAPIKey
  function GenerateAPIKey(userId: string, name: string, scopes: seq<string>, now: Time, d: Draws, h: Passwords.Host)
    : Result<NewKey, Error>
  {
    if Text.IsBlank(userId) then Err(NoUser)
    else if Text.IsBlank(name) then Err(NoName)
    else
      match KeyId(KEY_ID_LEN, d)
      case Err(e) => Err(e)
      case Ok(keyId) =>
        match RandomToken(SECRET_LEN, d.secret)
        case Err(e) => Err(e)
        case Ok(secret) =>
          match Passwords.Hash(secret, None, h)
          case Err(e) => Err(Hashing(e))
          case Ok(hash) =>
            Ok(NewKey(Token(keyId, secret), Row("ak-" + keyId, keyId, hash, userId, name, scopes, now, None, None)))
  }

  // ------------------------------------------------------------------
  // Parsing and masking
  // ------------------------------------------------------------------

  // ParseAPIKey: the key id and the secret.
  function ParseAPIKey(token: string): Option<(string, string)> {
    if !(API_KEY_PREFIX <= token) then None
    else
      var rest := token[|API_KEY_PREFIX|..];
      match Text.IndexOf(rest, '_')
      case None => None
      case Some(sep) =>
        if sep == 0 || sep == |rest| - 1 then None
        else
          var keyId, secret := rest[..sep], rest[sep + 1..];
          if |keyId| != KEY_ID_LEN || |secret| < 20 then None else Some((keyId, secret))
  }

  // MaskAPIKey
  function MaskAPIKey(token: string): string {
    if !(API_KEY_PREFIX <= token) then "***"
    else
      var rest := token[|API_KEY_PREFIX|..];
      match Text.IndexOf(rest, '_')
      case None => API_KEY_PREFIX + "***"
      case Some(sep) => if sep == 0 then API_KEY_PREFIX + "***" else API_KEY_PREFIX + rest[..sep] + "_***"
  }

  // What is no token is masked whole, and a token without an id but for its prefix.
  lemma MaskIs(rest: string, token: string)
    ensures !("opi_" <= token) ==> MaskAPIKey(token) == "***"
    ensures '_' !in rest || rest[0] == '_' ==> MaskAPIKey("opi_" + rest) == "opi_***"
  {
    assert ("opi_" + rest)[4..] == rest;
  }

  lemma TokenRest(keyId: string, secret: string)
    requires '_' !in keyId
    ensures API_KEY_PREFIX <= Token(keyId, secret)
    ensures var rest := Token(keyId, secret)[|API_KEY_PREFIX|..];
            && Text.IndexOf(rest, '_') == Some(|keyId|)
            && rest[..|keyId|] == keyId && rest[|keyId| + 1..] == secret && |rest| == |keyId| + 1 + |secret|
  {
    var rest := keyId + ['_'] + secret;
    assert Token(keyId, secret) == API_KEY_PREFIX + rest;
    Text.IndexAfter(keyId, '_', secret);
  }

  lemma ParsedToken(token: string, keyId: string, secret: string)
    requires ParseAPIKey(token) == Some((keyId, secret))
    ensures token == Token(keyId, secret) && '_' !in keyId
  {
    var rest := token[|API_KEY_PREFIX|..];
    assert rest == keyId + ['_'] + secret;
    assert token == API_KEY_PREFIX + rest;
  }

  // A token parses to an id and a secret exactly if it is their token, the id has
  // eight characters and no underscore, and the secret at least twenty, of any kind.
  lemma ParsesIffToken(token: string, keyId: string, secret: string)
    ensures ParseAPIKey(token) == Some((keyId, secret)) <==>
            token == "opi_" + keyId + "_" + secret && |keyId| == 8 && '_' !in keyId && |secret| >= 20
  {
    if ParseAPIKey(token) == Some((keyId, secret)) {
      ParsedToken(token, keyId, secret);
    }
    if '_' !in keyId {
      TokenRest(keyId, secret);
    }
  }

  // Masking shows what stands before the first underscore and hides the rest: the
  // masks of two tokens with the same id are the same.
  lemma MaskHidesSecret(keyId: string, secret: string, other: string)
    requires '_' !in keyId
    ensures MaskAPIKey(Token(keyId, secret)) == if keyId == [] then "opi_***" else Token(keyId, "***")
    ensures MaskAPIKey(Token(keyId, secret)) == MaskAPIKey(Token(keyId, other))
  {
    TokenRest(keyId, secret);
    TokenRest(keyId, other);
    assert "_***" == ['_'] + "***";
    assert API_KEY_PREFIX + keyId + "_***" == Token(keyId, "***");
  }

  // What is generated parses back to exactly the id stored with it and the secret
  // that was hashed, underscores in the secret included.
  lemma GeneratedParses(userId: string, name: string, scopes: seq<string>, now: Time, d: Draws, h: Passwords.Host)
      returns (secret: string)
    requires Fills(d.secret) && GenerateAPIKey(userId, name, scopes, now, d, h).Ok?
    ensures var k := GenerateAPIKey(userId, name, scopes, now, d, h).value;
            && ParseAPIKey(k.plainToken) == Some((k.record.keyId, secret))
            && MaskAPIKey(k.plainToken) == Token(k.record.keyId, "***")
            && Base64.Decode(Base64.Url, secret) == d.secret(SECRET_LEN)
            && Passwords.Hash(secret, None, h) == Ok(k.record.hash)
            && k.record.revokedAt.None? && k.record.expiresAt.None?
  {
    var k := GenerateAPIKey(userId, name, scopes, now, d, h).value;
    secret := RandomToken(SECRET_LEN, d.secret).value;
    TokenDecodes(SECRET_LEN, d.secret);
    KeyIdShape(KEY_ID_LEN, d);
    ParsesIffToken(k.plainToken, k.record.keyId, secret);
    MaskHidesSecret(k.record.keyId, secret, secret);
  }

  // ------------------------------------------------------------------
  // Verifying
  // ------------------------------------------------------------------

  datatype Lookup = Found(row: Row) | NotFound | StoreFailed

  // All but NoStore, LoadFailed and Crash are ErrInvalidAPIKey, some with a reason.
  datatype VerifyError = NoStore | LoadFailed | Invalid | Revoked | Expired | BadHash | Crash

  predicate Lapsed(row: Row, now: Time) {
    row.expiresAt.Some? && row.expiresAt.value != 0 && row.expiresAt.value < now
  }

  // VerifyAPIKey; no store stands for a nil one.
  function VerifyAPIKey(store: Option<string -> Lookup>, token: string, now: Time, h: Passwords.Host)
    : Result<Row, VerifyError>
  {
    if store.None? then Err(NoStore)
    else
      match ParseAPIKey(token)
      case None => Err(Invalid)
      case Some((keyId, secret)) =>
        match store.value(keyId)
        case NotFound => Err(Invalid)
        case StoreFailed => Err(LoadFailed)
        case Found(row) =>
          if row.revokedAt.Some? then Err(Revoked)
          else if Lapsed(row, now) then Err(Expired)
          else
            match Passwords.VerifyPassword(row.hash, secret, h)
            case Match => Ok(row)
            case InvalidCredentials => Err(Invalid)
            case MalformedHash => Err(BadHash)
            case Panicked => Err(Crash)
  }

  // A stored key opens with the token it was generated with for as long as it is
  // neither revoked nor expired, whatever else of its row was edited since.
  lemma GeneratedVerifies(userId: string, name: string, scopes: seq<string>, made: Time, d: Draws, h: Passwords.Host,
                          store: string -> Lookup, row: Row, now: Time)
    requires Fills(d.secret) && Passwords.Sound(h) && GenerateAPIKey(userId, name, scopes, made, d, h).Ok?
    requires var k := GenerateAPIKey(userId, name, scopes, made, d, h).value;
             row.hash == k.record.hash && store(k.record.keyId) == Found(row)
    ensures var token := GenerateAPIKey(userId, name, scopes, made, d, h).value.plainToken;
            && (VerifyAPIKey(Some(store), token, now, h) == Ok(row) <==>
                && row.revokedAt.None?
                && (row.expiresAt.None? || row.expiresAt.value == 0 || now <= row.expiresAt.value))
            && (VerifyAPIKey(Some(store), token, now, h) == Err(Expired) <==>
                row.revokedAt.None? && row.expiresAt.Some? && 0 < row.expiresAt.value < now)
            && (VerifyAPIKey(Some(store), token, now, h) == Err(Revoked) <==> row.revokedAt.Some?)
  {
    var secret := GeneratedParses(userId, name, scopes, made, d, h);
    Passwords.HashVerifies(secret, secret, None, h);
  }

  // Nothing opens a key but a token that names its id and carries a secret from which
  // the same argon2 key is derived.
  lemma OnlySecretOpens(userId: string, name: string, scopes: seq<string>, made: Time, d: Draws, h: Passwords.Host,
                        store: string -> Lookup, token: string, now: Time)
    returns (secret: string)
    requires Fills(d.secret) && Passwords.Sound(h) && GenerateAPIKey(userId, name, scopes, made, d, h).Ok?
    requires var k := GenerateAPIKey(userId, name, scopes, made, d, h).value;
             forall id :: store(id) == if id == k.record.keyId then Found(k.record) else NotFound
    ensures var k := GenerateAPIKey(userId, name, scopes, made, d, h).value;
            var p := Passwords.DefaultParams(h.cpus);
            var derive := (pw: string) => h.idKey(pw, h.random(16).value, 3, 65536, p.parallelism, 32);
            && h.random(16).Some?
            && ParseAPIKey(k.plainToken) == Some((k.record.keyId, secret))
            && (VerifyAPIKey(Some(store), token, now, h) == Ok(k.record) <==>
                && ParseAPIKey(token).Some? && ParseAPIKey(token).value.0 == k.record.keyId
                && derive(ParseAPIKey(token).value.1) == derive(secret))
  {
    secret := GeneratedParses(userId, name, scopes, made, d, h);
    if ParseAPIKey(token).Some? {
      Passwords.HashVerifies(secret, ParseAPIKey(token).value.1, None, h);
    }
  }

  // ------------------------------------------------------------------
  // In figures and letters
  // ------------------------------------------------------------------

  // Of a text small letters and digits are kept, capital letters made small, and all else
  // dropped, character by character.
  lemma {:induction false} KeyCharsJoin(s: string, t: string)
    ensures KeyChars(s + t) == KeyChars(s) + KeyChars(t)
    decreases |t|
  {
    if t == [] {
      assert s + t == s;
    } else {
      var front := t[..|t| - 1];
      assert (s + t)[..|s + t| - 1] == s + front;
      KeyCharsJoin(s, front);
    }
  }

  lemma KeyCharsOne(c: char)
    ensures 'a' <= c <= 'z' || '0' <= c <= '9' ==> KeyChars([c]) == [c]
    ensures 'A' <= c <= 'Z' ==> KeyChars([c]) == [(c as int - 'A' as int + 'a' as int) as char]
    ensures !('a' <= c <= 'z') && !('0' <= c <= '9') && !('A' <= c <= 'Z') ==> KeyChars([c]) == []
  {
    assert [c][..0] == [];
  }

  // Which draws an id is made of: 2n+2 bytes, and only if these have too few characters
  // 4n more.
  lemma KeyIdIs(n: int, d: Draws)
    requires n > 0 && d.id(n * 2 + 2).Some?
    ensures var k := KeyChars(Base64.Encode(Base64.Url, d.id(n * 2 + 2).value));
            && (|k| >= n ==> KeyId(n, d) == Ok(k[..n]))
            && (|k| < n && d.retry(n * 4).Some? ==>
                  var all := k + KeyChars(Base64.Encode(Base64.Url, d.retry(n * 4).value));
                  KeyId(n, d) == if |all| >= n then Ok(all[..n]) else Err(FewLetters))
  {
  }

  // The row of a new key holds what the caller gave, and an id made of the key's own.
  lemma GeneratedRow(userId: string, name: string, scopes: seq<string>, now: Time, d: Draws, h: Passwords.Host)
    requires GenerateAPIKey(userId, name, scopes, now, d, h).Ok?
    ensures var k := GenerateAPIKey(userId, name, scopes, now, d, h).value;
            && KeyId(8, d) == Ok(k.record.keyId) && k.record.id == "ak-" + k.record.keyId
            && k.record.userId == userId && k.record.name == name && k.record.scopes == scopes
            && k.record.createdAt == now && k.record.expiresAt.None? && k.record.revokedAt.None?
  {
  }

  // Without a user or a display name there is no key, and no other error but of a draw or
  // of hashing.
  lemma GenerateErrors(userId: string, name: string, scopes: seq<string>, now: Time, d: Draws, h: Passwords.Host)
    ensures var r := GenerateAPIKey(userId, name, scopes, now, d, h);
            && ((forall i :: 0 <= i < |userId| ==> Text.IsSpace(userId[i])) <==> r == Err(NoUser))
            && (r != Err(NoUser) ==> ((forall i :: 0 <= i < |name| ==> Text.IsSpace(name[i])) <==> r == Err(NoName)))
            && (r != Err(NoUser) && r != Err(NoName) ==>
                  (r.Ok? <==> KeyId(8, d).Ok? && d.secret(32).Some?
                              && Passwords.Hash(Base64.Encode(Base64.Url, d.secret(32).value), None, h).Ok?))
  {
    Text.BlankIffAllSpace(userId);
    Text.BlankIffAllSpace(name);
  }

  // What a token is refused for before its secret is looked at.
  lemma VerifyErrors(store: Option<string -> Lookup>, token: string, now: Time, h: Passwords.Host)
    ensures store.None? ==> VerifyAPIKey(store, token, now, h) == Err(NoStore)
    ensures store.Some? && ParseAPIKey(token).None? ==> VerifyAPIKey(store, token, now, h) == Err(Invalid)
    ensures store.Some? && ParseAPIKey(token).Some? ==>
              && (store.value(ParseAPIKey(token).value.0) == NotFound ==>
                    VerifyAPIKey(store, token, now, h) == Err(Invalid))
              && (store.value(ParseAPIKey(token).value.0) == StoreFailed ==>
                    VerifyAPIKey(store, token, now, h) == Err(LoadFailed))
  {
  }

  // And for afterwards.
  lemma SecretErrors(store: string -> Lookup, token: string, now: Time, h: Passwords.Host, row: Row)
    requires ParseAPIKey(token).Some? && store(ParseAPIKey(token).value.0) == Found(row)
    requires row.revokedAt.None? && row.expiresAt.None?
    ensures VerifyAPIKey(Some(store), token, now, h) ==
            match Passwords.VerifyPassword(row.hash, ParseAPIKey(token).value.1, h)
            case Match => Ok(row)
            case InvalidCredentials => Err(Invalid)
            case MalformedHash => Err(BadHash)
            case Panicked => Err(Crash)
  {
  }
}
