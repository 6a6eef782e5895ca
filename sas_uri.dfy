/** `get_blob_sas_uri`: the blob URL with a shared access signature appended. */
module SasUri {
  import opened Common

  const Scheme := "https://"
  const HostSuffix := "blob.core.windows.net/"
  const SasErrorText := "Error occoured in getting blob sas uri"

  /** The four parts the URL template is filled with. */
  datatype SasParts = SasParts(account: string, container: string, blob: string, token: string)

  /** `'https://{account_name}.blob.core.windows.net/{container_name}/{blob_name}?{blob_sas_token}'`. */
  function SasUrl(p: SasParts): string {
    Scheme + p.account + "." + HostSuffix + p.container + "/" + p.blob + "?" + p.token
  }

  /** The handler, given the configured account and container, the
      `blob_name` query parameter (None when absent) and what the blob storage
      helper's `get_blob_sas_token` did: raised, or returned a token (None or ""
      is falsy). Neither the parameter lookup nor the helper call is inside a
      try block, so when either raises the handler raises too and returns no
      response (None). */
  function BlobSasUriResponse(account: string, container: string, blobName: Option<string>,
                              token: Attempt<Option<string>>): (r: Option<Response>)
    ensures r.Some? <==> blobName.Some? && token.Ok?
    ensures r.Some? ==> r.value.status == OkStatus
    ensures r.Some? && (token.value.None? || token.value.value == "") ==>
              r.value.text == SasErrorText && ParseSasUrl(r.value.text).None?
    ensures r.Some? && token.value.Some? && token.value.value != "" &&
            Separable(SasParts(account, container, blobName.value, token.value.value)) ==>
              ParseSasUrl(r.value.text) == Some(SasParts(account, container, blobName.value, token.value.value))
  {
    match (blobName, token)
    case (None, _) => None
    case (Some(_), Raised(_)) => None
    case (Some(blob), Ok(issued)) =>
      if issued.Some? && issued.value != "" then
        var p := SasParts(account, container, blob, issued.value);
        ParseRoundTrip(p);
        Some(Response(SasUrl(p), OkStatus))
      else
        assert SasErrorText[..|Scheme|] != Scheme by { assert SasErrorText[0] != Scheme[0]; }
        Some(Response(SasErrorText, OkStatus))
  }

  /** The parts can be told apart again: no dot in the account name, no slash
      in the container name, no question mark in the token. */
  predicate Separable(p: SasParts) {
    '.' !in p.account && '/' !in p.container && '?' !in p.token
  }

  /** The text before the first `c` and the text after it. */
  function SplitFirst(s: string, c: char): Option<(string, string)> {
    if s == [] then None
    else if s[0] == c then Some(([], s[1..]))
    else match SplitFirst(s[1..], c)
      case None => None
      case Some((before, after)) => Some(([s[0]] + before, after))
  }

  /** The text before the last `c` and the text after it. */
  function SplitLast(s: string, c: char): Option<(string, string)> {
    if s == [] then None
    else if s[|s| - 1] == c then Some((s[..|s| - 1], []))
    else match SplitLast(s[..|s| - 1], c)
      case None => None
      case Some((before, after)) => Some((before, after + [s[|s| - 1]]))
  }

  /** Reads the four parts back out of a signed URL. */
  function ParseSasUrl(url: string): Option<SasParts> {
    if |url| < |Scheme| || url[..|Scheme|] != Scheme then None
    else match SplitFirst(url[|Scheme|..], '.')
      case None => None
      case Some((account, rest)) =>
        if |rest| < |HostSuffix| || rest[..|HostSuffix|] != HostSuffix then None
        else match SplitFirst(rest[|HostSuffix|..], '/')
          case None => None
          case Some((container, path)) =>
            match SplitLast(path, '?')
            case None => None
            case Some((blob, token)) => Some(SasParts(account, container, blob, token))
  }

  lemma {:induction false} SplitFirstAt(a: string, c: char, b: string)
    requires c !in a
    ensures SplitFirst(a + [c] + b, c) == Some((a, b))
  {
    if a != [] {
      assert (a + [c] + b)[1..] == a[1..] + [c] + b;
      SplitFirstAt(a[1..], c, b);
      assert [a[0]] + a[1..] == a;
    }
  }

  lemma {:induction false} SplitLastAt(a: string, c: char, b: string)
    requires c !in b
    ensures SplitLast(a + [c] + b, c) == Some((a, b))
  {
    var s := a + [c] + b;
    if b == [] {
      assert s[..|s| - 1] == a;
    } else {
      var b' := b[..|b| - 1];
      assert s[..|s| - 1] == a + [c] + b';
      assert s[|s| - 1] == b[|b| - 1];
      SplitLastAt(a, c, b');
      assert b' + [b[|b| - 1]] == b;
    }
  }

  /** Filling the template and reading it back gives the same parts. */
  lemma ParseRoundTrip(p: SasParts)
    ensures Separable(p) ==> ParseSasUrl(SasUrl(p)) == Some(p)
  {
    if Separable(p) {
      var url := SasUrl(p);
      var path := p.blob + "?" + p.token;
      var rest := HostSuffix + p.container + "/" + path;
      assert url == Scheme + (p.account + "." + rest);
      assert url[..|Scheme|] == Scheme;
      assert url[|Scheme|..] == p.account + ['.'] + rest;
      SplitFirstAt(p.account, '.', rest);
      assert rest[..|HostSuffix|] == HostSuffix;
      assert rest[|HostSuffix|..] == p.container + ['/'] + path;
      SplitFirstAt(p.container, '/', path);
      assert path == p.blob + ['?'] + p.token;
      SplitLastAt(p.blob, '?', p.token);
    }
  }
}
