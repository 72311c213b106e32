/** The answer to the platform's webhook address check (src/utils/validation.rs). The ed25519
    signature and its hex encoding are a parameter `sign` of the seed and the message. */
module Validation {
  import opened Common
  import opened Json
  import opened Event

  /** `ed25519_dalek::SECRET_KEY_LENGTH` */
  const SecretKeyLength: nat := 32

  /** The signer: hex of the ed25519 signature of a message under the key built from a seed. */
  type Signer = (seq<byte>, string) -> string

  /** `ValidationRequest`: the payload of an op-13 frame. */
  datatype ValidationRequest = ValidationRequest(eventTs: string, plainToken: string)

  /** `ValidationResponse`: the token echoed back and its signature. */
  datatype ValidationResponse = ValidationResponse(plainToken: string, signature: string)

  /** `serde_json::from_value::<ValidationRequest>(d)`: `d` must be an object with string fields
      `event_ts` and `plain_token`; other keys are ignored. An absent `d` is `null` and fails. */
  function ParseValidationRequest(d: Option<Json>): (r: Option<ValidationRequest>)
    ensures r.Some? <==>
      d.Some? && d.value.JObj? && GetStr(d.value.fields, "event_ts").Some? && GetStr(d.value.fields, "plain_token").Some?
    ensures r.Some? ==> d.value.fields["event_ts"] == JStr(r.value.eventTs)
    ensures r.Some? ==> d.value.fields["plain_token"] == JStr(r.value.plainToken)
  {
    if d.None? || !d.value.JObj? then None
    else
      var ts := GetStr(d.value.fields, "event_ts");
      var token := GetStr(d.value.fields, "plain_token");
      if ts.None? || token.None? then None else Some(ValidationRequest(ts.value, token.value))
  }

  /** The 32 signing-key bytes: byte `i` is byte `i mod |secret|` of the secret. */
  function SigningSeed(secret: seq<byte>): (seed: seq<byte>)
    requires |secret| > 0
    ensures |seed| == SecretKeyLength
  {
    seq(SecretKeyLength, i requires 0 <= i < SecretKeyLength => secret[i % |secret|])
  }

  /** A positive multiple of `n` is at least `n`. */
  lemma MulAtLeast(a: int, n: int)
    requires a >= 1 && n > 0
    ensures a * n >= n
  {
  }

  /** Euclidean division is unique: `q * n + r` with `0 <= r < n` leaves remainder `r`. */
  lemma ModUnique(x: int, q: int, r: int, n: int)
    requires n > 0 && 0 <= r < n && x == q * n + r
    ensures x % n == r
  {
    var q', r' := x / n, x % n;
    assert (q - q') * n == r' - r;
    if q - q' >= 1 {
      MulAtLeast(q - q', n);
      assert false;
    } else if q' - q >= 1 {
      MulAtLeast(q' - q, n);
      assert false;
    }
  }

  /** Appending a whole copy of the secret to a buffer whose length is a multiple of it keeps
      every byte at its place in the cycle. */
  lemma CycleShift(m: nat, j: nat, n: nat)
    requires n > 0 && m % n == 0 && j < n
    ensures (m + j) % n == j
  {
    assert m == (m / n) * n + m % n;
    ModUnique(m + j, m / n, j, n);
  }

  /** `buf` is the secret written out whole some number of times. */
  predicate Cycles(buf: seq<byte>, secret: seq<byte>)
    requires |secret| > 0
  {
    |buf| % |secret| == 0 && forall i :: 0 <= i < |buf| ==> buf[i] == secret[i % |secret|]
  }

  /** One more copy of the secret keeps the buffer a repetition of it. */
  lemma AppendKeepsCycle(buf: seq<byte>, secret: seq<byte>)
    requires |secret| > 0 && Cycles(buf, secret)
    ensures Cycles(buf + secret, secret)
  {
    var n := |secret|;
    var next := buf + secret;
    forall i | 0 <= i < |next|
      ensures next[i] == secret[i % n]
    {
      if i >= |buf| {
        CycleShift(|buf|, i - |buf|, n);
      }
    }
    assert |buf| == (|buf| / n) * n + |buf| % n;
    ModUnique(|buf| + n, |buf| / n + 1, 0, n);
  }

  /** The loop `while seed.len() < SECRET_KEY_LENGTH { seed.push_str(secret) }` on the bytes of
      the secret. It ends only for a non-empty secret; the result is the secret repeated, and the
      last copy was needed to reach 32 bytes. */
  method ExpandSecret(secret: seq<byte>) returns (buf: seq<byte>)
    requires |secret| > 0
    ensures |buf| >= SecretKeyLength
    ensures Cycles(buf, secret)
    ensures buf == secret || |buf| - |secret| < SecretKeyLength
  {
    buf := secret;
    assert Cycles(buf, secret) by {
      ModUnique(|secret|, 1, 0, |secret|);
      forall i | 0 <= i < |secret|
        ensures buf[i] == secret[i % |secret|]
      {
        ModUnique(i, 0, i, |secret|);
      }
    }
    while |buf| < SecretKeyLength
      invariant |buf| >= |secret| && Cycles(buf, secret)
      invariant buf == secret || |buf| - |secret| < SecretKeyLength
      decreases SecretKeyLength - |buf|
    {
      AppendKeepsCycle(buf, secret);
      buf := buf + secret;
    }
  }

  /** `&seed.as_bytes()[..SECRET_KEY_LENGTH]` after the loop. */
  method DeriveSeed(secret: seq<byte>) returns (seed: seq<byte>)
    requires |secret| > 0
    ensures seed == SigningSeed(secret)
  {
    var buf := ExpandSecret(secret);
    seed := buf[..SecretKeyLength];
  }

  /** A secret of at least 32 bytes is cut to its first 32 bytes. */
  lemma LongSecretSeed(secret: seq<byte>)
    requires |secret| >= SecretKeyLength
    ensures SigningSeed(secret) == secret[..SecretKeyLength]
  {
  }

  /** A shorter secret is cycled: a 16-byte secret is used twice over. */
  lemma ShortSecretSeed(secret: seq<byte>)
    requires |secret| == 16
    ensures SigningSeed(secret) == secret + secret
  {
  }

  /** The message that is signed: `event_ts` followed by `plain_token`. */
  function SignedMessage(req: ValidationRequest): (msg: string)
    ensures |msg| == |req.eventTs| + |req.plainToken|
    ensures msg[..|req.eventTs|] == req.eventTs && msg[|req.eventTs|..] == req.plainToken
  {
    req.eventTs + req.plainToken
  }

  /** What `validate_webhook` returns; `None` stands for the panic of `unwrap` on a payload that
      is not a validation request. */
  function Validated(payload: Frame, secret: seq<byte>, sign: Signer): (r: Option<ValidationResponse>)
    requires ParseValidationRequest(payload.d).Some? ==> |secret| > 0
    ensures r.Some? <==> ParseValidationRequest(payload.d).Some?
    ensures r.Some? ==> r.value.plainToken == ParseValidationRequest(payload.d).value.plainToken
    ensures r.Some? ==>
      r.value.signature == sign(SigningSeed(secret), SignedMessage(ParseValidationRequest(payload.d).value))
  {
    match ParseValidationRequest(payload.d)
    case None => None
    case Some(req) => Some(ValidationResponse(req.plainToken, sign(SigningSeed(secret), SignedMessage(req))))
  }

  /** `validate_webhook(payload, secret)` */
  method ValidateWebhook(payload: Frame, secret: seq<byte>, sign: Signer) returns (r: Option<ValidationResponse>)
    requires ParseValidationRequest(payload.d).Some? ==> |secret| > 0
    ensures r == Validated(payload, secret, sign)
  {
    var request := ParseValidationRequest(payload.d);
    if request.None? {
      return None;
    }
    var seed := DeriveSeed(secret);
    var msg := request.value.eventTs;
    msg := msg + request.value.plainToken;
    var signature := sign(seed, msg);
    r := Some(ValidationResponse(request.value.plainToken, signature));
  }

  /** The derived `Serialize` of `ValidationResponse`. */
  function EncodeResponse(resp: ValidationResponse): (v: Json)
    ensures v.JObj? && v.fields.Keys == {"plain_token", "signature"}
    ensures GetStr(v.fields, "plain_token") == Some(resp.plainToken)
    ensures GetStr(v.fields, "signature") == Some(resp.signature)
  {
    JObj(map["plain_token" := JStr(resp.plainToken), "signature" := JStr(resp.signature)])
  }

  /** The token of the request comes back unchanged in the response to a well-formed check. */
  lemma TokenEchoed(eventTs: string, plainToken: string, secret: seq<byte>, sign: Signer, id: Option<string>, s: Option<u64>, t: Option<string>)
    requires |secret| > 0
    ensures var d := JObj(map["event_ts" := JStr(eventTs), "plain_token" := JStr(plainToken)]);
      Validated(Frame(id, 13, Some(d), s, t), secret, sign)
        == Some(ValidationResponse(plainToken, sign(SigningSeed(secret), eventTs + plainToken)))
  {
  }
}
