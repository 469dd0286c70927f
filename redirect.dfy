/** The request hook of the EduRouter redirect addon: a request whose
    pretty host ends with "example.com" or "example.org" is sent to the
    Wikipedia article on man-in-the-middle attacks, and one whose pretty
    host ends with "faccbook.com" is sent to a look-alike phishing host.

    The proxy library decides one thing the addon cannot see: whether
    assigning the request's host also rewrites its Host header. Every member
    that assigns the host takes that choice as the parameter
    `syncHostHeader`, and every property is proved for both settings. */
module Redirect {
  import opened Suffix

  datatype Option<T> = None | Some(value: T)

  const ExampleCom := "example.com"
  const ExampleOrg := "example.org"
  const FaccbookCom := "faccbook.com"
  const WikipediaHost := "en.wikipedia.org"
  const WikipediaPath := "/wiki/Man-in-the-middle_attack"
  const FakebookHost := "www.fakebook.com.required.user-login-auth.online"

  /** The fields of an intercepted request. `hostHeader` is the host named by
      the Host header, when the request carries one; `headers` are the other
      headers. */
  datatype RequestData = RequestData(
    verb: string,
    scheme: string,
    host: string,
    port: nat,
    path: string,
    hostHeader: Option<string>,
    headers: seq<(string, string)>,
    body: seq<bv8>)

  /** What the hook writes to the console: a banner naming the rule that
      fired, followed by the pretty host it saw. */
  datatype Banner = ExampleBanner(shown: string) | FaccbookBanner(shown: string)

  /** The request's host as the client named it: the Host header when it is
      present and not empty, otherwise the request's host. */
  function PrettyHost(d: RequestData): string {
    match d.hostHeader
    case Some(h) => if h != "" then h else d.host
    case None => d.host
  }

  predicate IsExampleHost(h: string) {
    EndsWith(h, ExampleCom) || EndsWith(h, ExampleOrg)
  }

  predicate IsFaccbookHost(h: string) {
    EndsWith(h, FaccbookCom)
  }

  /** Assigning the request's host; when the library keeps the Host header
      in step, a present header is rewritten too. */
  function WithHost(d: RequestData, h: string, syncHostHeader: bool): RequestData {
    var header := if syncHostHeader && d.hostHeader.Some? then Some(h) else d.hostHeader;
    d.(host := h, hostHeader := header)
  }

  /** The first test of the hook. */
  function WikipediaRule(d: RequestData, syncHostHeader: bool): RequestData {
    if IsExampleHost(PrettyHost(d)) then
      WithHost(d, WikipediaHost, syncHostHeader).(path := WikipediaPath)
    else
      d
  }

  /** The second test of the hook, which reads the pretty host again. */
  function FakebookRule(d: RequestData, syncHostHeader: bool): RequestData {
    if IsFaccbookHost(PrettyHost(d)) then WithHost(d, FakebookHost, syncHostHeader) else d
  }

  /** The request as the hook leaves it: both tests in order. */
  function Rewrite(d: RequestData, syncHostHeader: bool): RequestData {
    FakebookRule(WikipediaRule(d, syncHostHeader), syncHostHeader)
  }

  /** The banners the hook prints, in order. */
  function Banners(d: RequestData, syncHostHeader: bool): seq<Banner> {
    var mid := WikipediaRule(d, syncHostHeader);
    (if IsExampleHost(PrettyHost(d)) then [ExampleBanner(PrettyHost(d))] else [])
    + (if IsFaccbookHost(PrettyHost(mid)) then [FaccbookBanner(PrettyHost(mid))] else [])
  }

  /** A host that ends with "example.com" or "example.org" does not end with
      "faccbook.com". */
  lemma ExampleHostIsNotFaccbook(h: string)
    ensures IsExampleHost(h) ==> !IsFaccbookHost(h)
  {
    assert !EndsWith(FaccbookCom, ExampleCom);
    assert !EndsWith(FaccbookCom, ExampleOrg);
    SuffixesExclusive(h, ExampleCom, FaccbookCom);
    SuffixesExclusive(h, ExampleOrg, FaccbookCom);
  }

  /** The two hosts the hook writes match neither test. */
  lemma TargetsMatchNoRule()
    ensures !IsExampleHost(WikipediaHost) && !IsFaccbookHost(WikipediaHost)
    ensures !IsExampleHost(FakebookHost) && !IsFaccbookHost(FakebookHost)
  {
  }

  /** After the host is assigned, the pretty host is either the new host or,
      when the library leaves a non-empty Host header alone, what it was. */
  lemma PrettyHostAfterWithHost(d: RequestData, h: string, syncHostHeader: bool)
    ensures var p := PrettyHost(WithHost(d, h, syncHostHeader));
      p == h || (p == PrettyHost(d) && WithHost(d, h, syncHostHeader).hostHeader == d.hostHeader)
  {
  }

  /** The matching is a suffix test on the whole name, not a comparison of
      domain labels, and it is case-sensitive: "myexample.com" is redirected,
      while "EXAMPLE.COM" and "example.com.attacker.net" are left alone. */
  lemma MatchingIsPlainSuffix(d: RequestData, syncHostHeader: bool)
    ensures IsExampleHost("myexample.com")
    ensures !IsExampleHost("EXAMPLE.COM") && !IsFaccbookHost("EXAMPLE.COM")
    ensures !IsExampleHost("example.com.attacker.net") && !IsFaccbookHost("example.com.attacker.net")
    ensures PrettyHost(d) == "myexample.com" ==>
      Rewrite(d, syncHostHeader).host == WikipediaHost && Rewrite(d, syncHostHeader).path == WikipediaPath
    ensures PrettyHost(d) in {"EXAMPLE.COM", "example.com.attacker.net"} ==>
      Rewrite(d, syncHostHeader) == d
  {
    if PrettyHost(d) == "myexample.com" {
      RewriteExampleHost(d, syncHostHeader);
    }
  }

  /** A request for an example.com or example.org host is sent to the
      Wikipedia article. */
  lemma RewriteExampleHost(d: RequestData, syncHostHeader: bool)
    requires IsExampleHost(PrettyHost(d))
    ensures Rewrite(d, syncHostHeader).host == WikipediaHost
    ensures Rewrite(d, syncHostHeader).path == WikipediaPath
  {
    AtMostOneRewrite(d, syncHostHeader);
  }

  /** A request for a faccbook.com host is sent to the phishing host, with
      its path kept. */
  lemma RewriteFaccbookHost(d: RequestData, syncHostHeader: bool)
    requires IsFaccbookHost(PrettyHost(d))
    ensures Rewrite(d, syncHostHeader).host == FakebookHost
    ensures Rewrite(d, syncHostHeader).path == d.path
  {
    ExampleHostIsNotFaccbook(PrettyHost(d));
  }

  /** A request for any other host is left exactly as it was. */
  lemma RewriteOtherHost(d: RequestData, syncHostHeader: bool)
    requires !IsExampleHost(PrettyHost(d)) && !IsFaccbookHost(PrettyHost(d))
    ensures Rewrite(d, syncHostHeader) == d
  {
  }

  /** Once the first rule has fired, the second one does not: at most one
      rewrite happens, whatever the library does with the Host header. */
  lemma AtMostOneRewrite(d: RequestData, syncHostHeader: bool)
    ensures IsExampleHost(PrettyHost(d)) ==>
      !IsFaccbookHost(PrettyHost(WikipediaRule(d, syncHostHeader)))
  {
    if IsExampleHost(PrettyHost(d)) {
      ExampleHostIsNotFaccbook(PrettyHost(d));
      PrettyHostAfterWithHost(d, WikipediaHost, syncHostHeader);
      TargetsMatchNoRule();
    }
  }

  /** The hook changes the host, the path and possibly the Host header, and
      nothing else of the request. */
  lemma RewriteKeepsOtherFields(d: RequestData, syncHostHeader: bool)
    ensures var r := Rewrite(d, syncHostHeader);
      r.verb == d.verb && r.scheme == d.scheme && r.port == d.port
      && r.headers == d.headers && r.body == d.body
  {
  }

  /** At most one banner is printed, and it shows the pretty host the request
      had on entry. */
  lemma BannersShowEntryHost(d: RequestData, syncHostHeader: bool)
    ensures var p := PrettyHost(d);
      Banners(d, syncHostHeader) ==
        if IsExampleHost(p) then [ExampleBanner(p)]
        else if IsFaccbookHost(p) then [FaccbookBanner(p)]
        else []
  {
    AtMostOneRewrite(d, syncHostHeader);
  }

  /** Running the hook a second time changes nothing more. */
  lemma RewriteIdempotent(d: RequestData, syncHostHeader: bool)
    ensures Rewrite(Rewrite(d, syncHostHeader), syncHostHeader) == Rewrite(d, syncHostHeader)
  {
  }

  /** An intercepted request as the proxy hands it to the hook: its fields
      are updated in place. */
  class Request {
    var verb: string
    var scheme: string
    var host: string
    var port: nat
    var path: string
    var hostHeader: Option<string>
    var headers: seq<(string, string)>
    var body: seq<bv8>

    constructor (d: RequestData)
      ensures Data() == d
    {
      verb, scheme, host, port := d.verb, d.scheme, d.host, d.port;
      path, hostHeader, headers, body := d.path, d.hostHeader, d.headers, d.body;
    }

    /** The request's fields as a value. */
    function Data(): RequestData
      reads this
    {
      RequestData(verb, scheme, host, port, path, hostHeader, headers, body)
    }

    /** The library's host setter. */
    method SetHost(h: string, syncHostHeader: bool)
      modifies this`host, this`hostHeader
      ensures Data() == WithHost(old(Data()), h, syncHostHeader)
    {
      host := h;
      if syncHostHeader && hostHeader.Some? {
        hostHeader := Some(h);
      }
    }

    /** The hook: two tests in sequence, the second reading the pretty host
        again after the first may have rewritten the request. */
    method RedirectHook(syncHostHeader: bool) returns (banners: seq<Banner>)
      modifies this`host, this`path, this`hostHeader
      ensures Data() == Rewrite(old(Data()), syncHostHeader)
      ensures banners == Banners(old(Data()), syncHostHeader)
      ensures IsExampleHost(PrettyHost(old(Data()))) ==>
        host == WikipediaHost && path == WikipediaPath
      ensures IsFaccbookHost(PrettyHost(old(Data()))) ==>
        host == FakebookHost && path == old(path)
      ensures !IsExampleHost(PrettyHost(old(Data()))) && !IsFaccbookHost(PrettyHost(old(Data()))) ==>
        unchanged(this) && banners == []
    {
      ghost var entry := Data();
      banners := [];
      if IsExampleHost(PrettyHost(Data())) {
        banners := banners + [ExampleBanner(PrettyHost(Data()))];
        SetHost(WikipediaHost, syncHostHeader);
        path := WikipediaPath;
      }
      if IsFaccbookHost(PrettyHost(Data())) {
        banners := banners + [FaccbookBanner(PrettyHost(Data()))];
        SetHost(FakebookHost, syncHostHeader);
      }
      if IsExampleHost(PrettyHost(entry)) {
        RewriteExampleHost(entry, syncHostHeader);
      }
      if IsFaccbookHost(PrettyHost(entry)) {
        RewriteFaccbookHost(entry, syncHostHeader);
      }
    }
  }
}
