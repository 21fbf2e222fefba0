/**
  Versioned ciphertexts (internal/pkg/crypto/aes.go): the text "v<N>:<payload>" and the key ring that
  reads it. The cipher itself is a parameter of which only the inverse law is used.
*/
module Ciphertext {
  import opened Numeric

  const MAX_INT := 9223372036854775807

  // ---------------------------------------------------------------- decimal numbers

  predicate IsDigit(c: char) {
    '0' <= c <= '9'
  }

  function Digit(n: nat): char
    requires n < 10
  {
    "0123456789"[n]
  }

  function DigitValue(c: char): nat
    requires IsDigit(c)
  {
    c as int - '0' as int
  }

  /** What the %d verb prints. */
  function Decimal(n: nat): string {
    if n < 10 then [Digit(n)] else Decimal(n / 10) + [Digit(n % 10)]
  }

  predicate AllDigits(s: string) {
    forall i | 0 <= i < |s| :: IsDigit(s[i])
  }

  function Value(s: string): nat
    requires AllDigits(s)
  {
    if s == [] then 0 else 10 * Value(s[..|s| - 1]) + DigitValue(s[|s| - 1])
  }

  /** strconv.Atoi: an optional sign, at least one digit, and a value that fits. */
  function Atoi(s: string): Option<int> {
    var digits := if s != [] && (s[0] == '+' || s[0] == '-') then s[1..] else s;
    if digits == [] || !AllDigits(digits) then None
    else
      var n: int := if s[0] == '-' then 0 - Value(digits) else Value(digits);
      if -MAX_INT - 1 <= n <= MAX_INT then Some(n) else None
  }

  lemma {:induction false} DecimalRoundTrip(n: nat)
    ensures Decimal(n) != [] && AllDigits(Decimal(n)) && Value(Decimal(n)) == n
  {
    if n < 10 {
      assert [Digit(n)][..0] == [];
    } else {
      DecimalRoundTrip(n / 10);
      var s := Decimal(n / 10);
      assert (s + [Digit(n % 10)])[..|s|] == s;
    }
  }

  lemma AtoiReadsDecimal(n: nat)
    requires n <= MAX_INT
    ensures Atoi(Decimal(n)) == Some(n)
  {
    DecimalRoundTrip(n);
    assert IsDigit(Decimal(n)[0]);
  }

  // ------------------------------------------------------------------- the prefix

  /** The position of the first such character, or -1. */
  function IndexByte(s: string, c: char): (r: int)
    ensures -1 <= r < |s|
    ensures r >= 0 ==> s[r] == c && forall i | 0 <= i < r :: s[i] != c
    ensures r == -1 ==> forall i | 0 <= i < |s| :: s[i] != c
  {
    if s == [] then -1
    else if s[0] == c then 0
    else
      var r := IndexByte(s[1..], c);
      assert forall i | 1 <= i < |s| :: s[i] == s[1..][i - 1];
      if r == -1 then -1 else r + 1
  }

  function AddVersion(version: nat, payload: string): string {
    "v" + Decimal(version) + ":" + payload
  }

  /** The version and the payload; version 0 stands for a text without a version. */
  function StripVersion(text: string): (int, string) {
    if !("v" <= text) then (0, text)
    else
      var colon := IndexByte(text, ':');
      if colon < 2 then (0, text)
      else
        match Atoi(text[1..colon])
        case None => (0, text)
        case Some(v) => if v <= 0 then (0, text) else (v, text[colon + 1..])
  }

  predicate HasVersion(text: string, version: nat) {
    "v" + Decimal(version) + ":" <= text
  }

  /** Reading back what was written. */
  lemma VersionRoundTrip(version: nat, payload: string)
    requires 0 < version <= MAX_INT
    ensures StripVersion(AddVersion(version, payload)) == (version, payload)
    ensures HasVersion(AddVersion(version, payload), version)
  {
    var text, digits := AddVersion(version, payload), Decimal(version);
    DecimalRoundTrip(version);
    AtoiReadsDecimal(version);
    assert text == "v" + (digits + (":" + payload));
    var colon := IndexByte(text, ':');
    assert text[|digits| + 1] == ':';
    assert forall i | 0 <= i <= |digits| :: text[i] != ':' by {
      assert forall i | 1 <= i <= |digits| :: text[i] == digits[i - 1];
    }
    assert colon == |digits| + 1;
    assert text[1..colon] == digits;
    assert text[colon + 1..] == payload;
  }

  /** A text that carries the prefix is read with exactly that version. */
  lemma PrefixIsVersion(text: string, version: nat)
    requires 0 < version <= MAX_INT && HasVersion(text, version)
    ensures StripVersion(text).0 == version
  {
    var prefix := "v" + Decimal(version) + ":";
    assert text == AddVersion(version, text[|prefix|..]);
    VersionRoundTrip(version, text[|prefix|..]);
  }

  /** An unversioned payload, which has no colon, is never taken for a versioned one. */
  lemma LegacyStaysLegacy(payload: string)
    requires ':' !in payload
    ensures StripVersion(payload) == (0, payload)
  {
  }

  // --------------------------------------------------------------------- key ring

  /** Authenticated encryption: sealing takes a nonce, opening may fail. */
  datatype Cipher = Cipher(seal: (string, nat, string) -> string, open: (string, string) -> Option<string>)

  ghost predicate Lawful(c: Cipher) {
    forall key, nonce, plain :: c.open(key, c.seal(key, nonce, plain)) == Some(plain)
  }

  datatype Keyring = Keyring(keys: map<int, string>, latest: nat)

  /** What NewKeyring checks. */
  ghost predicate ValidKeyring(kr: Keyring) {
    && 0 < kr.latest <= MAX_INT && kr.latest in kr.keys
    && forall v | v in kr.keys :: 0 < v <= kr.latest
  }

  function EncryptWithKeyring(c: Cipher, kr: Keyring, nonce: nat, plain: string): Option<string> {
    if kr.latest in kr.keys then Some(AddVersion(kr.latest, c.seal(kr.keys[kr.latest], nonce, plain))) else None
  }

  /** Legacy texts are tried with every key, newest first. */
  function TryKeys(c: Cipher, kr: Keyring, payload: string, v: nat): Option<string> {
    if v == 0 then None
    else if v in kr.keys && c.open(kr.keys[v], payload).Some? then c.open(kr.keys[v], payload)
    else TryKeys(c, kr, payload, v - 1)
  }

  function DecryptWithKeyring(c: Cipher, kr: Keyring, text: string): Option<string> {
    var (version, payload) := StripVersion(text);
    if version != 0 then
      if version in kr.keys then c.open(kr.keys[version], payload) else None
    else TryKeys(c, kr, payload, kr.latest)
  }

  lemma EncryptionRoundTrip(c: Cipher, kr: Keyring, nonce: nat, plain: string)
    requires Lawful(c) && ValidKeyring(kr)
    ensures EncryptWithKeyring(c, kr, nonce, plain).Some?
    ensures DecryptWithKeyring(c, kr, EncryptWithKeyring(c, kr, nonce, plain).value) == Some(plain)
    ensures HasVersion(EncryptWithKeyring(c, kr, nonce, plain).value, kr.latest)
  {
    VersionRoundTrip(kr.latest, c.seal(kr.keys[kr.latest], nonce, plain));
  }

  // ------------------------------------------------------------------- older texts

  /** A text written under any key of the ring can still be read, whichever key is the latest. */
  lemma OlderVersionsRead(c: Cipher, kr: Keyring, v: nat, nonce: nat, plain: string)
    requires Lawful(c) && ValidKeyring(kr) && v in kr.keys
    ensures DecryptWithKeyring(c, kr, AddVersion(v, c.seal(kr.keys[v], nonce, plain))) == Some(plain)
    ensures HasVersion(AddVersion(v, c.seal(kr.keys[v], nonce, plain)), kr.latest) <==> v == kr.latest
  {
    var text := AddVersion(v, c.seal(kr.keys[v], nonce, plain));
    VersionRoundTrip(v, c.seal(kr.keys[v], nonce, plain));
    if HasVersion(text, kr.latest) {
      PrefixIsVersion(text, kr.latest);
    }
  }

  lemma {:induction false} NewestThatOpens(c: Cipher, kr: Keyring, payload: string, v: nat, n: nat)
    requires v in kr.keys && 0 < v <= n && c.open(kr.keys[v], payload).Some?
    requires forall u | u in kr.keys && v < u :: c.open(kr.keys[u], payload).None?
    ensures TryKeys(c, kr, payload, n) == c.open(kr.keys[v], payload)
    decreases n
  {
    if v < n {
      NewestThatOpens(c, kr, payload, v, n - 1);
    }
  }

  /** A text from before versions is read by the newest key that opens it, and is never current. */
  lemma LegacyTextsRead(c: Cipher, kr: Keyring, v: nat, nonce: nat, plain: string)
    requires Lawful(c) && ValidKeyring(kr) && v in kr.keys && ':' !in c.seal(kr.keys[v], nonce, plain)
    requires forall u | u in kr.keys && v < u :: c.open(kr.keys[u], c.seal(kr.keys[v], nonce, plain)).None?
    ensures DecryptWithKeyring(c, kr, c.seal(kr.keys[v], nonce, plain)) == Some(plain)
    ensures !HasVersion(c.seal(kr.keys[v], nonce, plain), kr.latest)
  {
    var payload := c.seal(kr.keys[v], nonce, plain);
    LegacyStaysLegacy(payload);
    NewestThatOpens(c, kr, payload, v, kr.latest);
    PrefixHasColon(payload, kr.latest);
  }

  lemma PrefixHasColon(text: string, version: nat)
    ensures HasVersion(text, version) ==> ':' in text
  {
    if HasVersion(text, version) {
      var prefix := "v" + Decimal(version) + ":";
      assert prefix[|prefix| - 1] == ':' && text[|prefix| - 1] == prefix[|prefix| - 1];
    }
  }

  /** A text nobody in the ring wrote: a version that is not there is not readable, and neither is one no key opens. */
  lemma UnknownVersionsFail(c: Cipher, kr: Keyring, v: nat, payload: string)
    requires ValidKeyring(kr) && 0 < v <= MAX_INT && v !in kr.keys
    ensures DecryptWithKeyring(c, kr, AddVersion(v, payload)).None?
  {
    VersionRoundTrip(v, payload);
  }
}
