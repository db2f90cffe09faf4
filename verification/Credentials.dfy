/**
 Password records, API keys and access tokens (app/services/security.py): texts made of
 parts joined by a separator and taken apart again.  Hashing, signing and JSON are
 abstract functions; nothing is claimed about their strength.
 */
module Credentials {
  import opened Prelude
  import opened Text
  import opened Decimal
  import opened Base64Url

  // ---------------------------------------------------------------- split

  /** `s.split(sep, most)`. */
  function Split(s: string, sep: char, most: nat): seq<string> {
    if most == 0 then [s]
    else
      var head := Head(s, sep);
      if |head| == |s| then [s] else [head] + Split(s[|head| + 1..], sep, most - 1)
  }

  /** The text before the first separator. */
  function Head(s: string, sep: char): (r: string)
    ensures r <= s && sep !in r
    ensures r == s || s[|r|] == sep
  {
    if s == "" || s[0] == sep then "" else [s[0]] + Head(s[1..], sep)
  }

  lemma {:induction false} HeadOf(head: string, sep: char, tail: string)
    requires sep !in head
    ensures Head(head + [sep] + tail, sep) == head && Head(head, sep) == head
  {
    if head == "" {
    } else {
      HeadOf(head[1..], sep, tail);
      assert (head + [sep] + tail)[1..] == head[1..] + [sep] + tail;
    }
  }

  /** A part without the separator is split off whole. */
  lemma SplitOff(head: string, sep: char, tail: string, most: nat)
    requires sep !in head && most > 0
    ensures Split(head + [sep] + tail, sep, most) == [head] + Split(tail, sep, most - 1)
  {
    HeadOf(head, sep, tail);
    assert (head + [sep] + tail)[|head| + 1..] == tail;
  }

  lemma AlphabetExcludes(s: string, sep: char)
    requires InAlphabet(s) && Value(sep) == None
    ensures sep !in s
  {
  }

  // ---------------------------------------------------------------- passwords

  const PASSWORD_ALGORITHM := "pbkdf2_sha256"

  /** The iteration counts PBKDF2 takes; any other makes it raise. */
  const MAX_ITERATIONS := 0x7fff_ffff

  predicate Countable(iterations: int) {
    1 <= iterations <= MAX_ITERATIONS
  }

  /** PBKDF2 of a password, a salt and an iteration count. */
  type Pbkdf2 = (string, seq<byte>, nat) -> seq<byte>

  function PasswordText(count: string, salt: seq<byte>, digest: seq<byte>): string {
    PASSWORD_ALGORITHM + "$" + (count + "$" + (Encode(salt) + "$" + Encode(digest)))
  }

  /** `None` is the exception of PBKDF2. */
  function HashPassword(password: string, salt: seq<byte>, iterations: nat, pbkdf2: Pbkdf2): Option<string> {
    if Countable(iterations) then
      Some(PasswordText(ToDecimal(iterations), salt, pbkdf2(password, salt, iterations)))
    else None
  }

  /** `verify_password` answers, or lets the exception of PBKDF2 through. */
  datatype Verdict = Answer(matches: bool) | Raises

  function VerifyPassword(password: string, record: string, pbkdf2: Pbkdf2): Verdict {
    var parts := Split(record, '$', 3);
    if |parts| != 4 || parts[0] != PASSWORD_ALGORITHM then Answer(false)
    else
      var iterations, salt, digest := ToInt(parts[1]), Decode(parts[2]), Decode(parts[3]);
      if iterations == None || salt == None || digest == None then Answer(false)
      else if !Countable(iterations.value) then Raises
      else Answer(pbkdf2(password, salt.value, iterations.value) == digest.value)
  }

  /** Four parts, the first three without the separator, come apart as they were joined. */
  lemma FourParts(a: string, b: string, c: string, d: string, sep: char)
    requires sep !in a && sep !in b && sep !in c
    ensures Split(a + [sep] + (b + [sep] + (c + [sep] + d)), sep, 3) == [a, b, c, d]
  {
    var r2 := c + [sep] + d;
    var r1 := b + [sep] + r2;
    SplitOff(a, sep, r1, 3);
    SplitOff(b, sep, r2, 2);
    SplitOff(c, sep, d, 1);
  }

  lemma RecordParts(count: string, salt: seq<byte>, digest: seq<byte>)
    requires '$' !in count
    ensures Split(PasswordText(count, salt, digest), '$', 3) ==
            [PASSWORD_ALGORITHM, count, Encode(salt), Encode(digest)]
  {
    EncodedShape(salt);
    AlphabetExcludes(Encode(salt), '$');
    FourParts(PASSWORD_ALGORITHM, count, Encode(salt), Encode(digest), '$');
  }

  /**
   A stored record, whatever stands in its count: no number is no match, a number that PBKDF2
   does not take makes verification raise, and otherwise the digests decide.
   */
  lemma CountDecides(attempt: string, count: string, salt: seq<byte>, digest: seq<byte>, pbkdf2: Pbkdf2)
    requires '$' !in count
    ensures var n := ToInt(count);
            VerifyPassword(attempt, PasswordText(count, salt, digest), pbkdf2) ==
            if n == None then Answer(false)
            else if 1 <= n.value <= 2147483647 then Answer(pbkdf2(attempt, salt, n.value) == digest)
            else Raises
  {
    RecordParts(count, salt, digest);
    RoundTrip(salt);
    RoundTrip(digest);
  }

  /**
   Round trip: for every salt and every count that can be hashed with, a record accepts
   exactly the passwords with the same digest, the one it was made from among them, and
   never raises.
   */
  lemma PasswordRecord(password: string, attempt: string, salt: seq<byte>, iterations: nat, pbkdf2: Pbkdf2)
    ensures var record := HashPassword(password, salt, iterations, pbkdf2);
            && (record.Some? <==> 1 <= iterations <= 2147483647)
            && (record.Some? ==>
                  && VerifyPassword(attempt, record.value, pbkdf2) ==
                     Answer(pbkdf2(attempt, salt, iterations) == pbkdf2(password, salt, iterations))
                  && VerifyPassword(password, record.value, pbkdf2) == Answer(true))
  {
    if Countable(iterations) {
      DecimalRoundTrip(iterations);
      IntRoundTrip(iterations);
      CountDecides(attempt, ToDecimal(iterations), salt, pbkdf2(password, salt, iterations), pbkdf2);
      CountDecides(password, ToDecimal(iterations), salt, pbkdf2(password, salt, iterations), pbkdf2);
    }
  }

  /** A record of another scheme matches no password. */
  lemma OtherSchemeRefused(attempt: string, scheme: string, rest: string, pbkdf2: Pbkdf2)
    requires '$' !in scheme && scheme != "pbkdf2_sha256"
    ensures VerifyPassword(attempt, scheme + "$" + rest, pbkdf2) == Answer(false)
  {
    SplitOff(scheme, '$', rest, 3);
  }

  /** A stored count of zero makes `verify_password` raise instead of answering. */
  lemma ZeroCountRaises(attempt: string, salt: seq<byte>, digest: seq<byte>, pbkdf2: Pbkdf2)
    ensures VerifyPassword(attempt, PasswordText("0", salt, digest), pbkdf2) == Raises
  {
    assert ToDecimal(0) == "0";
    IntRoundTrip(0);
    CountDecides(attempt, "0", salt, digest, pbkdf2);
  }

  // ---------------------------------------------------------------- API keys

  const API_KEY_PREFIX := "rrk"
  const PREFIX_CHARS := 12

  /** From the bytes of `token_urlsafe(9)`. */
  function KeyPrefix(random: seq<byte>): string {
    var clean := Without(Without(Encode(random), '-'), '_');
    clean[..Min(PREFIX_CHARS, |clean|)]
  }

  /** `create_api_key`: `token_urlsafe` is the base64url text of random bytes. */
  function CreateApiKey(prefixBytes: seq<byte>, secretBytes: seq<byte>): string {
    API_KEY_PREFIX + "_" + (KeyPrefix(prefixBytes) + "_" + Encode(secretBytes))
  }

  function ApiKeyPrefix(key: string): Option<string> {
    var parts := Split(Strip(key), '_', 2);
    if |parts| != 3 || parts[0] != API_KEY_PREFIX || parts[1] == "" then None else Some(parts[1])
  }

  lemma LettersAreNotSpaces(c: char)
    ensures Value(c).Some? ==> !IsSpace(c)
  {
  }

  function IsMark(): char -> bool {
    (c: char) => c != '-' && c != '_'
  }

  /** The prefix is the first twelve of the random characters that are letters or digits, or all there are. */
  lemma PrefixIsTwelve(random: seq<byte>)
    ensures var clean := Filter(Encode(random), IsMark());
            KeyPrefix(random) <= clean && |KeyPrefix(random)| == Min(12, |clean|)
  {
    WithoutIsFilter(Encode(random));
  }

  lemma {:induction false} WithoutIsFilter(s: string)
    ensures Without(Without(s, '-'), '_') == Filter(s, IsMark())
  {
    if s == "" {
    } else {
      WithoutIsFilter(s[1..]);
      if s[0] != '-' {
        assert Without(s, '-')[1..] == Without(s[1..], '-');
      } else {
        assert Without(s, '-') == Without(s[1..], '-');
      }
      assert IsMark()(s[0]) <==> s[0] != '-' && s[0] != '_';
    }
  }

  lemma PrefixHasNoMarks(prefixBytes: seq<byte>)
    ensures '_' !in KeyPrefix(prefixBytes)
  {
    WithoutMembers(Without(Encode(prefixBytes), '-'), '_', '_');
  }

  /** Nothing for `strip()` to take off a key. */
  lemma KeyIsClean(prefixBytes: seq<byte>, secretBytes: seq<byte>)
    ensures Strip(CreateApiKey(prefixBytes, secretBytes)) == CreateApiKey(prefixBytes, secretBytes)
  {
    var key, secret := CreateApiKey(prefixBytes, secretBytes), Encode(secretBytes);
    EncodedShape(secretBytes);
    if secret != "" {
      LettersAreNotSpaces(secret[|secret| - 1]);
      assert key[|key| - 1] == secret[|secret| - 1];
    }
    StripOfClean(key);
  }

  /**
   The prefix is recovered from the key even when the secret contains underscores, exactly
   when it is not empty; it is empty only if all its random characters were - or _.
   */
  lemma ApiKeyRoundTrip(prefixBytes: seq<byte>, secretBytes: seq<byte>)
    ensures ApiKeyPrefix(CreateApiKey(prefixBytes, secretBytes)) ==
            if KeyPrefix(prefixBytes) == "" then None else Some(KeyPrefix(prefixBytes))
    ensures KeyPrefix(prefixBytes) == "" <==>
            forall i :: 0 <= i < |Encode(prefixBytes)| ==> Encode(prefixBytes)[i] in {'-', '_'}
  {
    var prefix, secret := KeyPrefix(prefixBytes), Encode(secretBytes);
    PrefixHasNoMarks(prefixBytes);
    KeyIsClean(prefixBytes, secretBytes);
    SplitOff(API_KEY_PREFIX, '_', prefix + "_" + secret, 2);
    SplitOff(prefix, '_', secret, 1);
    WithoutEmpty(Encode(prefixBytes), '-', '_');
  }

  lemma PrefixFound(t: string, prefix: string)
    requires '_' !in prefix && StartsWith(t, "rrk_" + prefix + "_")
    ensures |Split(t, '_', 2)| == 3 && Split(t, '_', 2)[0] == "rrk" && Split(t, '_', 2)[1] == prefix
  {
    var rest := t[|"rrk_" + prefix + "_"|..];
    assert t == "rrk" + "_" + (prefix + "_" + rest);
    SplitOff("rrk", '_', prefix + "_" + rest, 2);
    SplitOff(prefix, '_', rest, 1);
  }

  lemma PartsFound(t: string)
    requires |Split(t, '_', 2)| == 3
    ensures var parts := Split(t, '_', 2);
            StartsWith(t, parts[0] + "_" + parts[1] + "_") && '_' !in parts[1]
  {
    SplitJoins(t, '_', 2);
    RejoinedThree(Split(t, '_', 2), '_');
  }

  lemma RejoinedThree(parts: seq<string>, sep: char)
    requires |parts| == 3
    ensures Rejoined(parts, sep) == parts[0] + [sep] + parts[1] + [sep] + parts[2]
  {
    var rest := parts[1..];
    assert rest[1..] == [parts[2]];
    assert Rejoined(rest, sep) == parts[1] + [sep] + parts[2];
  }

  /** Exactly which texts have a prefix: spaces around aside, the scheme, a prefix, and more. */
  lemma PrefixIff(key: string, prefix: string)
    requires prefix != "" && '_' !in prefix
    ensures ApiKeyPrefix(key) == Some(prefix) <==> StartsWith(Strip(key), "rrk_" + prefix + "_")
  {
    if StartsWith(Strip(key), "rrk_" + prefix + "_") {
      PrefixFound(Strip(key), prefix);
    }
    if ApiKeyPrefix(key) == Some(prefix) {
      PartsFound(Strip(key));
      assert "rrk" + "_" + prefix + "_" == "rrk_" + prefix + "_";
    }
  }

  /** No other key has one. */
  lemma PrefixShape(key: string)
    ensures ApiKeyPrefix(key).Some? ==> ApiKeyPrefix(key).value != "" && '_' !in ApiKeyPrefix(key).value
  {
    if ApiKeyPrefix(key).Some? {
      PartsFound(Strip(key));
    }
  }

  /** `parts` are `s` cut at separators, at most `most` of them, each at the first one left. */
  ghost predicate Cuts(parts: seq<string>, s: string, sep: char, most: nat) {
    && 1 <= |parts| <= most + 1
    && Rejoined(parts, sep) == s
    && (forall i :: 0 <= i < |parts| - 1 ==> sep !in parts[i])
    && (|parts| <= most ==> sep !in parts[|parts| - 1])
  }

  lemma OneMoreCut(front: string, parts: seq<string>, s: string, sep: char, most: nat)
    requires sep !in front && Cuts(parts, s, sep, most)
    ensures Cuts([front] + parts, front + [sep] + s, sep, most + 1)
  {
    assert ([front] + parts)[1..] == parts;
  }

  /** Splitting loses nothing, and only the last part may contain the separator. */
  lemma {:induction false} SplitJoins(s: string, sep: char, most: nat)
    ensures Cuts(Split(s, sep, most), s, sep, most)
    decreases most
  {
    var head := Head(s, sep);
    if most > 0 && |head| < |s| {
      var after := s[|head| + 1..];
      SplitJoins(after, sep, most - 1);
      OneMoreCut(head, Split(after, sep, most - 1), after, sep, most - 1);
      assert s == head + [sep] + after;
    }
  }

  function Rejoined(parts: seq<string>, sep: char): string {
    if parts == [] then "" else if |parts| == 1 then parts[0] else parts[0] + [sep] + Rejoined(parts[1..], sep)
  }

  /** Groups of three bytes of ones. */
  function Ones(groups: nat): seq<byte> {
    if groups == 0 then [] else [255, 255, 255] + Ones(groups - 1)
  }

  /** Random bytes that are all ones, nine of them or any other three times n, make a key nobody can look up. */
  lemma {:induction false} UnusableKey(groups: nat, secretBytes: seq<byte>)
    ensures ApiKeyPrefix(CreateApiKey(Ones(groups), secretBytes)) == None
  {
    EncodeIsBare(Ones(groups));
    OnesAreUnderscores(groups);
    ApiKeyRoundTrip(Ones(groups), secretBytes);
  }

  lemma {:induction false} OnesAreUnderscores(groups: nat)
    ensures forall i :: 0 <= i < |Bare(Ones(groups))| ==> Bare(Ones(groups))[i] == '_'
  {
    if groups == 0 {
    } else {
      OnesAreUnderscores(groups - 1);
      assert Ones(groups)[3..] == Ones(groups - 1);
      assert Three(255, 255, 255) == "____";
    }
  }

  lemma WithoutEmpty(s: string, a: char, b: char)
    ensures Without(Without(s, a), b) == "" <==> forall i :: 0 <= i < |s| ==> s[i] in {a, b}
  {
    var left := Without(Without(s, a), b);
    forall x ensures x in left <==> x in s && x != a && x != b {
      WithoutMembers(s, a, x);
      WithoutMembers(Without(s, a), b, x);
    }
    if left != "" {
      assert left[0] in left;
      var i :| 0 <= i < |s| && s[i] == left[0];
    } else {
      forall i | 0 <= i < |s| ensures s[i] in {a, b} {
        assert s[i] in s && s[i] !in left;
      }
    }
  }

  // ---------------------------------------------------------------- access tokens

  const JWT_ALGORITHM := "HS256"

  /** A JSON value; of a list or an object only whether it is empty matters. */
  datatype Claim =
    | Text(s: string) | Number(n: int) | Fraction(x: real) | Bool(b: bool) | Null | Compound(json: string, empty: bool)

  type Claims = map<string, Claim>

  /** Signing under one key, and JSON; `loads` is `None` for anything that is not an object. */
  datatype Crypto = Crypto(
    sign: string -> seq<byte>,
    dumps: Claims -> seq<byte>,
    loads: seq<byte> -> Option<Claims>)

  datatype TokenError = InvalidToken | InvalidSignature | UnsupportedAlgorithm | Expired | SubjectMissing

  const HEADER: Claims := map["alg" := Claim.Text(JWT_ALGORITHM), "typ" := Claim.Text("JWT")]

  function Payload(subject: string, now: int, ttl: int, extra: Claims): Claims {
    map["sub" := Claim.Text(subject), "iat" := Number(now), "exp" := Number(now + ttl)] + extra
  }

  function CreateAccessToken(payload: Claims, crypto: Crypto): string {
    var signingInput := Encode(crypto.dumps(HEADER)) + "." + Encode(crypto.dumps(payload));
    signingInput + "." + Encode(crypto.sign(signingInput))
  }

  /** `int(x)` cuts a fraction off towards zero. */
  function Truncated(x: real): int {
    if x >= 0.0 then x.Floor else -((-x).Floor)
  }

  /** `int(payload.get("exp", 0))`; null, a list or an object makes it raise, and so may a text. */
  function ExpiresAt(payload: Claims): Option<int> {
    if "exp" !in payload then Some(0)
    else
      match payload["exp"]
      case Number(n) => Some(n)
      case Fraction(x) => Some(Truncated(x))
      case Bool(b) => Some(if b then 1 else 0)
      case Text(s) => ToInt(s)
      case _ => None
  }

  /** Python truth of `payload.get("sub")`. */
  predicate HasSubject(payload: Claims) {
    "sub" in payload &&
    match payload["sub"]
    case Text(s) => s != ""
    case Number(n) => n != 0
    case Fraction(x) => x != 0.0
    case Bool(b) => b
    case Null => false
    case Compound(_, empty) => !empty
  }

  function DecodeAccessToken(token: string, now: int, crypto: Crypto): Result<Claims, TokenError> {
    var parts := Split(token, '.', 2);
    if |parts| != 3 then Err(InvalidToken)
    else
      var signingInput := parts[0] + "." + parts[1];
      var provided := Decode(parts[2]);
      if !IsAscii(signingInput) || provided == None then Err(InvalidToken)
      else if crypto.sign(signingInput) != provided.value then Err(InvalidSignature)
      else CheckClaims(parts[0], parts[1], now, crypto)
  }

  function CheckClaims(rawHeader: string, rawPayload: string, now: int, crypto: Crypto): Result<Claims, TokenError> {
    var headerBytes := Decode(rawHeader);
    if headerBytes == None || crypto.loads(headerBytes.value) == None then Err(InvalidToken)
    else
      var header := crypto.loads(headerBytes.value).value;
      if !("alg" in header && header["alg"] == Claim.Text(JWT_ALGORITHM)) then Err(UnsupportedAlgorithm)
      else
        var payloadBytes := Decode(rawPayload);
        if payloadBytes == None || crypto.loads(payloadBytes.value) == None then Err(InvalidToken)
        else CheckPayload(crypto.loads(payloadBytes.value).value, now)
  }

  function CheckPayload(payload: Claims, now: int): Result<Claims, TokenError> {
    if ExpiresAt(payload) == None then Err(InvalidToken)
    else if ExpiresAt(payload).value < now then Err(Expired)
    else if !HasSubject(payload) then Err(SubjectMissing)
    else Ok(payload)
  }

  lemma TokenParts(header: letters, payload: letters, signature: string)
    ensures Split(header + "." + payload + "." + signature, '.', 2) == [header, payload, signature]
    ensures IsAscii(header + "." + payload)
  {
    AlphabetExcludes(header, '.');
    AlphabetExcludes(payload, '.');
    SplitOff(header, '.', payload + "." + signature, 2);
    SplitOff(payload, '.', signature, 1);
    assert header + "." + payload + "." + signature == header + "." + (payload + "." + signature);
    forall i | 0 <= i < |header + "." + payload| ensures (header + "." + payload)[i] as int < 128 {
      assert i > |header| ==> (header + "." + payload)[i] == payload[i - |header| - 1];
    }
  }

  /** A well-formed token is refused unless its signature is the reader's own. */
  lemma SignatureDecides(header: letters, body: letters, signature: seq<byte>, later: int, reader: Crypto)
    ensures DecodeAccessToken(header + "." + body + "." + Encode(signature), later, reader) ==
            if reader.sign(header + "." + body) == signature then CheckClaims(header, body, later, reader)
            else Err(InvalidSignature)
  {
    TokenParts(header, body, Encode(signature));
    RoundTrip(signature);
  }

  lemma ClaimsRead(payload: Claims, later: int, crypto: Crypto, reader: Crypto)
    requires crypto.loads(crypto.dumps(HEADER)) == Some(HEADER)
    requires crypto.loads(crypto.dumps(payload)) == Some(payload)
    requires reader.loads == crypto.loads
    ensures CheckClaims(Encode(crypto.dumps(HEADER)), Encode(crypto.dumps(payload)), later, reader) ==
            CheckPayload(payload, later)
  {
    RoundTrip(crypto.dumps(HEADER));
    RoundTrip(crypto.dumps(payload));
  }

  /**
   A token read back by the holder of the key that made it is judged only by its claims,
   whatever they are: the payload comes back exactly when it has not expired and has a
   subject.  Read with another key it is refused unless the signatures coincide.
   */
  lemma TokenRoundTrip(payload: Claims, later: int, crypto: Crypto, reader: Crypto)
    requires crypto.loads(crypto.dumps(HEADER)) == Some(HEADER)
    requires crypto.loads(crypto.dumps(payload)) == Some(payload)
    requires reader.loads == crypto.loads
    ensures DecodeAccessToken(CreateAccessToken(payload, crypto), later, crypto) == CheckPayload(payload, later)
    ensures var signingInput := Encode(crypto.dumps(HEADER)) + "." + Encode(crypto.dumps(payload));
            DecodeAccessToken(CreateAccessToken(payload, crypto), later, reader) ==
            if reader.sign(signingInput) == crypto.sign(signingInput) then CheckPayload(payload, later)
            else Err(InvalidSignature)
  {
    var header, body := Encode(crypto.dumps(HEADER)), Encode(crypto.dumps(payload));
    EncodedShape(crypto.dumps(HEADER));
    EncodedShape(crypto.dumps(payload));
    SignatureDecides(header, body, crypto.sign(header + "." + body), later, crypto);
    SignatureDecides(header, body, crypto.sign(header + "." + body), later, reader);
    ClaimsRead(payload, later, crypto, crypto);
    ClaimsRead(payload, later, crypto, reader);
  }

  /** In the terms of `create_access_token`: which extra claims, and when it stops working. */
  lemma TokenLifetime(subject: string, now: int, ttl: int, extra: Claims, later: int, crypto: Crypto)
    requires crypto.loads(crypto.dumps(HEADER)) == Some(HEADER)
    requires crypto.loads(crypto.dumps(Payload(subject, now, ttl, extra))) == Some(Payload(subject, now, ttl, extra))
    requires "sub" !in extra && "exp" !in extra
    ensures var payload := Payload(subject, now, ttl, extra);
            var decoded := DecodeAccessToken(CreateAccessToken(payload, crypto), later, crypto);
            && (decoded == Ok(payload) <==> later <= now + ttl && subject != "")
            && (decoded == Err(Expired) <==> later > now + ttl)
  {
    TokenRoundTrip(Payload(subject, now, ttl, extra), later, crypto, crypto);
  }

  /** A signed token whose header names another algorithm, or none, is refused before its claims are read. */
  lemma OtherAlgorithmRefused(header: Claims, rawPayload: string, later: int, crypto: Crypto)
    requires crypto.loads(crypto.dumps(header)) == Some(header)
    ensures CheckClaims(Encode(crypto.dumps(header)), rawPayload, later, crypto) == Err(UnsupportedAlgorithm) <==>
            !("alg" in header && header["alg"] == Claim.Text("HS256"))
  {
    RoundTrip(crypto.dumps(header));
  }

  /** `int()` of a fraction drops what is behind the point. */
  lemma TruncatedIs(x: real)
    ensures x >= 0.0 ==> Truncated(x) as real <= x < Truncated(x) as real + 1.0
    ensures x < 0.0 ==> Truncated(x) as real - 1.0 < x <= Truncated(x) as real
  {
  }

  /** Which claim a token expires by; a missing one is zero. */
  lemma ExpiryRead(payload: Claims)
    ensures "exp" !in payload ==> ExpiresAt(payload) == Some(0)
    ensures "exp" in payload ==>
              && (payload["exp"].Number? ==> ExpiresAt(payload) == Some(payload["exp"].n))
              && (payload["exp"].Fraction? ==> ExpiresAt(payload) == Some(Truncated(payload["exp"].x)))
              && (payload["exp"].Bool? ==> ExpiresAt(payload) == Some(if payload["exp"].b then 1 else 0))
              && (payload["exp"].Text? ==> ExpiresAt(payload) == ToInt(payload["exp"].s))
              && (payload["exp"].Null? || payload["exp"].Compound? ==> ExpiresAt(payload) == None)
  {
  }

  /** Which subjects are missing: none, and those that Python takes for false. */
  lemma SubjectMissingIff(payload: Claims)
    ensures !HasSubject(payload) <==>
            "sub" !in payload || payload["sub"] in {Claim.Text(""), Number(0), Fraction(0.0), Bool(false), Null}
            || (payload["sub"].Compound? && payload["sub"].empty)
  {
  }

  /** What a payload is judged by, in order: its expiry must be a number and not past, its subject must be there. */
  lemma PayloadJudged(payload: Claims, now: int)
    ensures CheckPayload(payload, now) == Err(InvalidToken) <==> ExpiresAt(payload) == None
    ensures CheckPayload(payload, now) == Err(Expired) <==> ExpiresAt(payload).Some? && ExpiresAt(payload).value < now
    ensures CheckPayload(payload, now).Ok? <==>
            ExpiresAt(payload).Some? && ExpiresAt(payload).value >= now && HasSubject(payload)
    ensures CheckPayload(payload, now).Ok? ==> CheckPayload(payload, now).value == payload
  {
  }

  /** What a new token says of itself. */
  lemma HeaderFields()
    ensures HEADER == map["alg" := Claim.Text("HS256"), "typ" := Claim.Text("JWT")]
  {
  }

  /** The claims of a new token: subject, time of issue and expiry, unless an extra claim of that name overrides them. */
  lemma PayloadFields(subject: string, now: int, ttl: int, extra: Claims)
    ensures var payload := Payload(subject, now, ttl, extra);
            && payload.Keys == {"sub", "iat", "exp"} + extra.Keys
            && (forall k :: k in extra ==> payload[k] == extra[k])
            && ("sub" !in extra ==> payload["sub"] == Claim.Text(subject))
            && ("iat" !in extra ==> payload["iat"] == Number(now))
            && ("exp" !in extra ==> payload["exp"] == Number(now + ttl))
  {
  }
}
