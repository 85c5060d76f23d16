/** The signed WebSocket URL of the iFlytek speech-dictation (IAT) service, built by
    `generateAuthUrl`. The keyed hash, the two base64 encoders and the URI encoder come from
    libraries and stay uninterpreted: they are supplied as function values in `Codecs`, so
    the canonical strings around them are checked exactly. */
module Signer {
  import opened Wrappers
  import opened Strings
  import Pcm

  datatype XunfeiConfig = XunfeiConfig(appId: string, apiKey: string, apiSecret: string)

  /** `CryptoJS.HmacSHA256(message, key)`, `CryptoJS.enc.Base64.stringify`, `btoa` and
      `encodeURIComponent`. */
  datatype Codecs = Codecs(
    hmacSha256: (string, string) -> seq<Pcm.byte>,
    base64: seq<Pcm.byte> -> string,
    btoa: string -> string,
    encodeUriComponent: string -> string)

  const BaseUrl: string := "wss://iat-api.xfyun.cn/v2/iat"
  const Host: string := "iat-api.xfyun.cn"
  const Path: string := "/v2/iat"
  const NoConfigError: string := "科大讯飞配置未设置"

  /** The string that is signed: host, date and request line, one per line. */
  function SignatureOrigin(date: string): string {
    ("host: " + Host) + "\n" + ("date: " + date) + "\n" + ("GET " + Path + " HTTP/1.1")
  }

  /** The authorization header value before its base64 encoding. */
  function AuthorizationOrigin(apiKey: string, signature: string): string {
    ("api_key=\"" + apiKey + "\"") + "," + " algorithm=\"hmac-sha256\"" + ","
      + " headers=\"host date request-line\"" + "," + (" signature=\"" + signature + "\"")
  }

  /** The query string of the connection URL: its three parameters. */
  function Query(authorization: string, encodedDate: string): string {
    ("authorization=" + authorization) + "&" + ("date=" + encodedDate) + "&" + ("host=" + Host)
  }

  /** The connection URL. */
  function SignedUrl(authorization: string, encodedDate: string): string {
    BaseUrl + "?" + Query(authorization, encodedDate)
  }

  /** The base64 HMAC-SHA256 signature of the canonical string under the API secret. */
  function Signature(config: XunfeiConfig, date: string, codecs: Codecs): string {
    codecs.base64(codecs.hmacSha256(SignatureOrigin(date), config.apiSecret))
  }

  /** The value of the `authorization` query parameter. */
  function Authorization(config: XunfeiConfig, date: string, codecs: Codecs): string {
    codecs.btoa(AuthorizationOrigin(config.apiKey, Signature(config, date, codecs)))
  }

  /** `generateAuthUrl`: fails without configuration, otherwise signs the request for the
      given date (the value of `new Date().toUTCString()`). */
  function GenerateAuthUrl(config: Option<XunfeiConfig>, date: string, codecs: Codecs): (r: Result<string, string>)
    ensures r.Failure? <==> config.None?
    ensures r.Failure? ==> r.error == NoConfigError
  {
    match config
    case None => Failure(NoConfigError)
    case Some(c) =>
      Success(SignedUrl(Authorization(c, date, codecs), codecs.encodeUriComponent(date)))
  }

  /** The signed string consists of exactly three lines: the host header, the date header
      and the request line, in that order (a UTC date string has no line break). */
  lemma SignatureOriginLines(date: string)
    requires '\n' !in date
    ensures Split(SignatureOrigin(date), '\n') == ["host: " + Host, "date: " + date, "GET " + Path + " HTTP/1.1"]
  {
    var lines := ["host: " + Host, "date: " + date, "GET " + Path + " HTTP/1.1"];
    Join3(lines[0], lines[1], lines[2], '\n');
    assert "\n" == ['\n'];
    assert '\n' !in lines[0];
    assert '\n' !in lines[2];
    SplitJoin(lines, '\n');
  }

  /** The authorization string lists the API key, the algorithm, the signed headers and the
      signature, in that order (a base64 signature has no comma). */
  lemma AuthorizationFields(apiKey: string, signature: string)
    requires ',' !in apiKey && ',' !in signature
    ensures Split(AuthorizationOrigin(apiKey, signature), ',') ==
      ["api_key=\"" + apiKey + "\"", " algorithm=\"hmac-sha256\"",
       " headers=\"host date request-line\"", " signature=\"" + signature + "\""]
  {
    var fields := ["api_key=\"" + apiKey + "\"", " algorithm=\"hmac-sha256\"",
                   " headers=\"host date request-line\"", " signature=\"" + signature + "\""];
    Join4(fields[0], fields[1], fields[2], fields[3], ',');
    assert "," == [','];
    assert ',' !in fields[0];
    assert ',' !in fields[1];
    assert ',' !in fields[2];
    assert ',' !in fields[3];
    SplitJoin(fields, ',');
  }

  /** The query consists of exactly the `authorization`, `date` and `host` parameters, in
      that order, provided neither value contains `&`; it contains no `?`. */
  lemma QueryParams(auth: string, enc: string)
    requires '?' !in auth && '&' !in auth && '?' !in enc && '&' !in enc
    ensures '?' !in Query(auth, enc)
    ensures Split(Query(auth, enc), '&') == ["authorization=" + auth, "date=" + enc, "host=" + Host]
  {
    var params := ["authorization=" + auth, "date=" + enc, "host=" + Host];
    Join3(params[0], params[1], params[2], '&');
    assert "&" == ['&'];
    assert Query(auth, enc) == Join(params, '&');
    assert '?' !in params[0] && '?' !in params[1] && '?' !in params[2];
    JoinAvoids(params, '&', '?');
    assert '&' !in params[0] && '&' !in params[1] && '&' !in params[2];
    SplitJoin(params, '&');
  }

  /** A signed URL is the fixed endpoint, `?`, and the query. */
  lemma SignedUrlQuery(auth: string, enc: string)
    requires '?' !in auth && '&' !in auth && '?' !in enc && '&' !in enc
    ensures |Split(SignedUrl(auth, enc), '?')| == 2
    ensures Split(SignedUrl(auth, enc), '?')[0] == BaseUrl
    ensures Split(Split(SignedUrl(auth, enc), '?')[1], '&') == ["authorization=" + auth, "date=" + enc, "host=" + Host]
  {
    var query := Query(auth, enc);
    QueryParams(auth, enc);
    assert '?' !in BaseUrl;
    assert [BaseUrl, query][1..] == [query];
    assert "?" == ['?'];
    assert SignedUrl(auth, enc) == Join([BaseUrl, query], '?');
    SplitJoin([BaseUrl, query], '?');
  }

  /** The URL that `generateAuthUrl` returns carries the signed authorization, the
      URI-encoded date and the fixed host as its only query parameters (neither base64 nor
      URI encoding emits `?` or `&`). */
  lemma AuthUrlQuery(config: XunfeiConfig, date: string, codecs: Codecs)
    requires '?' !in Authorization(config, date, codecs) && '&' !in Authorization(config, date, codecs)
    requires '?' !in codecs.encodeUriComponent(date) && '&' !in codecs.encodeUriComponent(date)
    ensures GenerateAuthUrl(Some(config), date, codecs).Success?
    ensures var url := GenerateAuthUrl(Some(config), date, codecs).value;
      && |Split(url, '?')| == 2
      && Split(url, '?')[0] == BaseUrl
      && Split(Split(url, '?')[1], '&') ==
           ["authorization=" + Authorization(config, date, codecs),
            "date=" + codecs.encodeUriComponent(date),
            "host=" + Host]
  {
    SignedUrlQuery(Authorization(config, date, codecs), codecs.encodeUriComponent(date));
  }

  lemma Join3(a: string, b: string, c: string, sep: char)
    ensures Join([a, b, c], sep) == a + [sep] + b + [sep] + c
  {
    assert [a, b, c][1..] == [b, c];
    assert [b, c][1..] == [c];
    assert Join([b, c], sep) == b + [sep] + c;
  }

  lemma Join4(a: string, b: string, c: string, d: string, sep: char)
    ensures Join([a, b, c, d], sep) == a + [sep] + b + [sep] + c + [sep] + d
  {
    assert [a, b, c, d][1..] == [b, c, d];
    Join3(b, c, d, sep);
  }

  /** A character absent from every part and different from the separator is absent from
      the joined string. */
  lemma {:induction false} JoinAvoids(parts: seq<string>, sep: char, c: char)
    requires |parts| > 0 && c != sep
    requires forall i :: 0 <= i < |parts| ==> c !in parts[i]
    ensures c !in Join(parts, sep)
  {
    if |parts| > 1 {
      JoinAvoids(parts[1..], sep, c);
    }
  }
}
