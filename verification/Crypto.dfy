/**
 Cryptography as terms. A key pair is a number, a ciphertext remembers the key and the plaintext,
 a signature remembers the secret: decryption undoes encryption for the matching key and for no
 other (RSAES-OAEP, section 7.1 of RFC 8017), and equal digests have equal inputs.
 Times are nanoseconds; Unix() cuts to whole seconds.
 */
module Crypto {
  import opened Base

  type Host = string
  type Key = nat
  type Byte = x: int | 0 <= x < 256 witness 0

  const SECOND: int := 1_000_000_000

  function Unix(t: int): int
  {
    t / SECOND
  }

  datatype Digest = Sha256(input: string)

  /** What a public_key_pem field can decode to. */
  datatype Pem = PublicKey(key: Key) | NotAKey

  datatype Alg = HS256 | OtherAlg

  datatype Jwt = Jwt(alg: Alg, secret: string, sub: Host, jti: string, iat: int, exp: int)

  datatype Plain = Bytes(bytes: seq<Byte>) | SignedToken(jwt: Jwt)

  /** What a base64 field can decode to. */
  datatype Cipher = Oaep(key: Key, plain: Plain) | NotBase64 | Undecryptable

  function Encrypt(pem: Pem, p: Plain): Option<Cipher>
  {
    if pem.PublicKey? then Some(Oaep(pem.key, p)) else None
  }

  function Decrypt(key: Key, c: Cipher): Option<Plain>
  {
    if c.Oaep? && c.key == key then Some(c.plain) else None
  }

  lemma DecryptUndoesEncrypt(key: Key, pem: Pem, p: Plain)
    ensures Encrypt(pem, p).Some? ==> (Decrypt(key, Encrypt(pem, p).value) == Some(p) <==> pem == PublicKey(key))
  {
  }

  /** []byte(s), for the tokens the server hands out. */
  function Utf8(s: string): seq<Byte>
  {
    if s == "" then [] else EncodeRune(s[0] as int) + Utf8(s[1..])
  }

  /** Section 3 of RFC 3629. */
  function EncodeRune(c: int): seq<Byte>
    requires 0 <= c < 0x11_0000
  {
    if c < 0x80 then [c]
    else if c < 0x800 then [0xC0 + c / 0x40, 0x80 + c % 0x40]
    else if c < 0x1_0000 then [0xE0 + c / 0x1000, 0x80 + c / 0x40 % 0x40, 0x80 + c % 0x40]
    else [0xF0 + c / 0x4_0000, 0x80 + c / 0x1000 % 0x40, 0x80 + c / 0x40 % 0x40, 0x80 + c % 0x40]
  }

  function RuneLen(first: Byte): nat
  {
    if first < 0x80 then 1 else if first < 0xE0 then 2 else if first < 0xF0 then 3 else 4
  }

  function DecodeRune(b: seq<Byte>): int
    requires b != [] && |b| == RuneLen(b[0])
  {
    match |b|
    case 1 => b[0]
    case 2 => (b[0] as int - 0xC0) * 0x40 + (b[1] as int - 0x80)
    case 3 => (b[0] as int - 0xE0) * 0x1000 + (b[1] as int - 0x80) * 0x40 + (b[2] as int - 0x80)
    case _ =>
      (b[0] as int - 0xF0) * 0x4_0000 + (b[1] as int - 0x80) * 0x1000 + (b[2] as int - 0x80) * 0x40
      + (b[3] as int - 0x80)
  }

  lemma Digits(c: int)
    requires 0 <= c
    ensures c / 0x1000 == c / 0x40 / 0x40 && c / 0x4_0000 == c / 0x1000 / 0x40
  {
  }

  /** The first byte tells how many there are, and they tell the rune. */
  lemma RuneDecodes(c: int)
    requires 0 <= c < 0x11_0000
    ensures var b := EncodeRune(c); b != [] && |b| == RuneLen(b[0]) && DecodeRune(b) == c
  {
    Digits(c);
  }

  /** Different strings have different bytes. */
  lemma {:induction false} Utf8Injective(a: string, b: string)
    requires Utf8(a) == Utf8(b)
    ensures a == b
  {
    if a != "" && b != "" {
      var c, d := EncodeRune(a[0] as int), EncodeRune(b[0] as int);
      RuneDecodes(a[0] as int);
      RuneDecodes(b[0] as int);
      assert Utf8(a)[0] == c[0] && Utf8(b)[0] == d[0];
      assert Utf8(a)[..|c|] == c && Utf8(b)[..|d|] == d;
      assert Utf8(a)[|c|..] == Utf8(a[1..]) && Utf8(b)[|d|..] == Utf8(b[1..]);
      Utf8Injective(a[1..], b[1..]);
      assert a == [a[0]] + a[1..] && b == [b[0]] + b[1..];
    } else if a != "" {
      RuneDecodes(a[0] as int);
    } else if b != "" {
      RuneDecodes(b[0] as int);
    }
  }

  /** signAgentJWT and the three copies of it: HS256, issued now, expiring after ttl, in whole seconds. */
  function Sign(secret: string, sub: Host, jti: string, now: int, ttl: int): Jwt
  {
    Jwt(HS256, secret, sub, jti, Unix(now), Unix(now + ttl))
  }

  /** parseJWT: HS256 only, signed with this secret, and before its expiry. */
  predicate Parses(token: Jwt, secret: string, now: int)
  {
    token.alg == HS256 && token.secret == secret && now < token.exp * SECOND
  }
}
