/**
 * `SignatureService`: HMAC signing of outgoing payloads and the constant-time
 * comparison used to check incoming signatures.
 */
module SignatureService {
  import opened Wrappers
  import opened Entities

  /**
   * The cryptographic collaborators: `hmac(data, key)` stands for the configured
   * MAC algorithm followed by Base64 (None when the algorithm is unavailable or
   * the key is rejected), `render` for `Map.toString()` of a payload, and `show`
   * for `toString()` of a JSON value that is neither a string nor null.
   */
  datatype Crypto = Crypto(hmac: (string, string) -> Option<string>, render: Payload -> string, show: Value -> string)

  /** `generateHmacSignature`: a key spec over an empty key is rejected before the MAC runs. */
  function HmacSignature(data: string, secret: string, crypto: Crypto): (r: Option<string>)
    ensures secret == [] ==> r == None
    ensures secret != [] ==> r == crypto.hmac(data, secret)
  {
    if secret == [] then None else crypto.hmac(data, secret)
  }

  /** `generateSignature`: any failure is rethrown as one RuntimeException. */
  function GenerateSignature(payload: Payload, secret: string, crypto: Crypto): (r: Result<string, Thrown>)
    ensures r.Ok? <==> HmacSignature(crypto.render(payload), secret, crypto).Some?
    ensures r.Ok? ==> r.value == HmacSignature(crypto.render(payload), secret, crypto).value
    ensures r.Err? ==> r.error == Throw(RuntimeException, "Failed to generate signature")
  {
    match HmacSignature(crypto.render(payload), secret, crypto)
    case Some(sig) => Ok(sig)
    case None => Err(Throw(RuntimeException, "Failed to generate signature"))
  }

  /**
   * `constantTimeEquals`: a null on either side compares unequal; otherwise every
   * character pair is visited (`steps` counts them) whatever the position of the
   * first difference, so the running time depends on the length alone.
   */
  method ConstantTimeEquals(a: Option<string>, b: Option<string>) returns (eq: bool, ghost steps: nat)
    ensures eq <==> a.Some? && b.Some? && a.value == b.value
    ensures a.Some? && b.Some? && |a.value| == |b.value| ==> steps == |a.value|
    ensures !(a.Some? && b.Some? && |a.value| == |b.value|) ==> steps == 0
  {
    steps := 0;
    if a.None? || b.None? {
      return false, steps;
    }
    var x, y := a.value, b.value;
    if |x| != |y| {
      return false, steps;
    }
    var result: nat := 0;
    var i := 0;
    while i < |x|
      invariant 0 <= i <= |x|
      invariant steps == i
      invariant result == 0 <==> x[..i] == y[..i]
    {
      XorZero(x[i] as nat, y[i] as nat);
      OrZero(result, Xor(x[i] as nat, y[i] as nat));
      assert x[..i + 1] == x[..i] + [x[i]] && y[..i + 1] == y[..i] + [y[i]];
      result := Or(result, Xor(x[i] as nat, y[i] as nat));
      i := i + 1;
      steps := steps + 1;
    }
    assert x[..i] == x && y[..i] == y;
    eq := result == 0;
  }

  /** Bitwise exclusive or of two non-negative integers (Java's `^` on non-negative `int`s). */
  function Xor(x: nat, y: nat): nat
    decreases x + y
  {
    if x == 0 && y == 0 then 0
    else 2 * Xor(x / 2, y / 2) + (if x % 2 != y % 2 then 1 else 0)
  }

  /** Bitwise inclusive or of two non-negative integers (Java's `|` on non-negative `int`s). */
  function Or(x: nat, y: nat): nat
    decreases x + y
  {
    if x == 0 && y == 0 then 0
    else 2 * Or(x / 2, y / 2) + (if x % 2 == 1 || y % 2 == 1 then 1 else 0)
  }

  /** The exclusive or vanishes exactly on equal operands. */
  lemma {:induction false} XorZero(x: nat, y: nat)
    ensures Xor(x, y) == 0 <==> x == y
    decreases x + y
  {
    if !(x == 0 && y == 0) {
      XorZero(x / 2, y / 2);
    }
  }

  /** The inclusive or vanishes exactly when both operands do. */
  lemma {:induction false} OrZero(x: nat, y: nat)
    ensures Or(x, y) == 0 <==> x == 0 && y == 0
    decreases x + y
  {
    if !(x == 0 && y == 0) {
      OrZero(x / 2, y / 2);
    }
  }

  /**
   * `verifySignature`: a null payload or secret, a rejected key, or an unavailable
   * algorithm all end in the catch block and yield false.
   */
  method VerifySignature(payload: Option<string>, signature: Option<string>, secret: Option<string>, crypto: Crypto)
    returns (valid: bool)
    ensures valid <==> Verifies(payload, signature, secret, crypto)
  {
    if payload.None? || secret.None? {
      return false;
    }
    var expected := HmacSignature(payload.value, secret.value, crypto);
    if expected.None? {
      return false;
    }
    ghost var steps;
    valid, steps := ConstantTimeEquals(signature, expected);
  }

  /** The meaning of a successful verification: the signature is the MAC of the payload under the secret. */
  ghost predicate Verifies(payload: Option<string>, signature: Option<string>, secret: Option<string>, crypto: Crypto) {
    && payload.Some? && secret.Some? && signature.Some?
    && HmacSignature(payload.value, secret.value, crypto) == Some(signature.value)
  }

  /** Signing then verifying the same rendering under the same secret succeeds. */
  lemma SignThenVerify(payload: Payload, secret: string, crypto: Crypto)
    requires GenerateSignature(payload, secret, crypto).Ok?
    ensures Verifies(Some(crypto.render(payload)), Some(GenerateSignature(payload, secret, crypto).value), Some(secret), crypto)
  {
  }

  /** An empty secret can neither sign nor verify. */
  lemma EmptySecretRejected(payload: Payload, data: Option<string>, signature: Option<string>, crypto: Crypto)
    ensures GenerateSignature(payload, [], crypto).Err?
    ensures !Verifies(data, signature, Some([]), crypto)
  {
  }
}
