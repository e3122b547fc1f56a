/**
 * The request signer (generateSignature): the canonical message that the
 * gateway's HMAC-SHA1 signature covers, and a parser that recovers the fields
 * from it. The keyed hash itself is a parameter `hmac(key, message)`.
 */
module Signer {
  import opened Wrappers

  const Separator: char := '\n'

  /** The five fields a signature covers, in message order. */
  datatype SignedFields = SignedFields(httpMethod: string, endpoint: string, timestamp: string, nonce: string, body: string)

  /** The canonical message: HTTP method, endpoint, timestamp, nonce and body,
      joined by newlines; a bodyless request signs an empty body. */
  function SigningMessage(httpMethod: string, endpoint: string, timestamp: string, nonce: string, body: string := ""): (msg: string)
    ensures |msg| == |httpMethod| + |endpoint| + |timestamp| + |nonce| + |body| + 4
    ensures msg[..|httpMethod|] == httpMethod
    ensures msg[|msg| - |body|..] == body
  {
    httpMethod + [Separator] + endpoint + [Separator] + timestamp + [Separator] + nonce + [Separator] + body
  }

  /** The hex signature of a request under `secret`. */
  function Signature(hmac: (string, string) -> string, secret: string,
                     httpMethod: string, endpoint: string, timestamp: string, nonce: string, body: string := ""): string
  {
    hmac(secret, SigningMessage(httpMethod, endpoint, timestamp, nonce, body))
  }

  /** Splits `s` at its first separator. */
  function SplitLine(s: string): (r: Option<(string, string)>)
    ensures r.Some? ==> Separator !in r.value.0 && s == r.value.0 + [Separator] + r.value.1
    ensures r.None? ==> Separator !in s
  {
    if |s| == 0 then None
    else if s[0] == Separator then Some(([], s[1..]))
    else match SplitLine(s[1..])
      case None => None
      case Some((line, rest)) => Some(([s[0]] + line, rest))
  }

  /** The verifying party's view: the fields of a canonical message whose
      first four fields hold no separator. */
  function ParseSigningMessage(msg: string): Option<SignedFields>
  {
    match SplitLine(msg)
    case None => None
    case Some((httpMethod, r1)) =>
      match SplitLine(r1)
      case None => None
      case Some((endpoint, r2)) =>
        match SplitLine(r2)
        case None => None
        case Some((timestamp, r3)) =>
          match SplitLine(r3)
          case None => None
          case Some((nonce, body)) => Some(SignedFields(httpMethod, endpoint, timestamp, nonce, body))
  }

  predicate HeaderFieldsOneLine(f: SignedFields)
  {
    Separator !in f.httpMethod && Separator !in f.endpoint && Separator !in f.timestamp && Separator !in f.nonce
  }

  lemma {:induction false} SplitLineOfJoin(line: string, rest: string)
    requires Separator !in line
    ensures SplitLine(line + [Separator] + rest) == Some((line, rest))
  {
    if |line| > 0 {
      assert (line + [Separator] + rest)[1..] == line[1..] + [Separator] + rest;
      SplitLineOfJoin(line[1..], rest);
      assert [line[0]] + line[1..] == line;
    }
  }

  /** Parsing the canonical message gives back the fields it was built from,
      as long as the four header fields are single lines. */
  lemma ParseSigningMessageRoundTrip(f: SignedFields)
    requires HeaderFieldsOneLine(f)
    ensures ParseSigningMessage(SigningMessage(f.httpMethod, f.endpoint, f.timestamp, f.nonce, f.body)) == Some(f)
  {
    var sep := [Separator];
    var r3 := f.nonce + sep + f.body;
    var r2 := f.timestamp + sep + r3;
    var r1 := f.endpoint + sep + r2;
    var msg := SigningMessage(f.httpMethod, f.endpoint, f.timestamp, f.nonce, f.body);
    assert msg == f.httpMethod + sep + r1;
    SplitLineOfJoin(f.httpMethod, r1);
    SplitLineOfJoin(f.endpoint, r2);
    SplitLineOfJoin(f.timestamp, r3);
    SplitLineOfJoin(f.nonce, f.body);
  }

  /** Two requests with single-line header fields sign the same message only
      when all five fields agree. */
  lemma SigningMessageInjective(f: SignedFields, g: SignedFields)
    requires HeaderFieldsOneLine(f) && HeaderFieldsOneLine(g)
    requires SigningMessage(f.httpMethod, f.endpoint, f.timestamp, f.nonce, f.body)
          == SigningMessage(g.httpMethod, g.endpoint, g.timestamp, g.nonce, g.body)
    ensures f == g
  {
    ParseSigningMessageRoundTrip(f);
    ParseSigningMessageRoundTrip(g);
  }

  /** Whatever the header fields, changing the body changes the message. */
  lemma BodyChangeChangesMessage(httpMethod: string, endpoint: string, timestamp: string, nonce: string, body: string, body': string)
    requires body != body'
    ensures SigningMessage(httpMethod, endpoint, timestamp, nonce, body) != SigningMessage(httpMethod, endpoint, timestamp, nonce, body')
  {
  }
}
