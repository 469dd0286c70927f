# EduRouter redirect hook

EduRouter's tools include an addon for the mitmproxy intercepting proxy.
Its `request` hook redirects requests whose host is spoofed by the
router's DNS. The hook reads the request's pretty host, which is the host
named by the `Host` header, falling back to the request's own host. It
then applies two suffix tests in order:

1. If the pretty host ends with `example.com` or `example.org`, the hook
   prints a banner and sends the request to the Wikipedia article on
   man-in-the-middle attacks: it sets the host to `en.wikipedia.org` and
   the path to `/wiki/Man-in-the-middle_attack`.
2. Next it reads the pretty host again. If it ends with `faccbook.com`,
   the hook prints a banner and sets only the host, to
   `www.fakebook.com.required.user-login-auth.online`.

The model has two modules:

- `Suffix` (suffix.dfy) models Python's `str.endswith`. It compares
  characters one at a time from the end. It is proved equal to the slice
  definition, and two suffixes of one string are proved to nest.
- `Redirect` (redirect.dfy) has three parts:
  - `RequestData` is the request as a value.
  - `Rewrite` and `Banners` are pure functions. They state the hook's
    effect on a request and its console output.
  - `Request` is a class whose fields the hook updates in place. Its
    method `RedirectHook` runs the two tests in sequence. It is proved
    to leave the request equal to `Rewrite` of the request on entry.

One behaviour belongs to the proxy library and is not visible in the
addon: whether assigning `host` also rewrites the `Host` header. Every
member that assigns the host takes this choice as the boolean
`syncHostHeader`, and every property is proved for both values.

## Model

| member | source | states |
|---|---|---|
| `Suffix.EndsWith` | src/redirect.py:16 | The character-by-character suffix test holds exactly when the suffix is no longer than the string and equals the string's last characters. The test is case-sensitive and has no notion of domain labels. |
| `Suffix.SuffixesNest` | src/redirect.py:16 | If a string ends with both `a` and `b`, and `a` is no longer than `b`, then `b` ends with `a`. |
| `Suffix.SuffixesExclusive` | src/redirect.py:30 | If `b` does not end with the shorter `a`, then no string ends with both. |
| `Redirect.PrettyHost` | src/redirect.py:10-12 | No contract of its own. It is the `Host` header when present and non-empty, else the host. `PrettyHostAfterWithHost` and `AtMostOneRewrite` state how it behaves after the host is assigned. |
| `Redirect.IsExampleHost` | src/redirect.py:16 | No contract of its own. It is the first test, a disjunction of two `EndsWith` tests. `MatchingIsPlainSuffix`, `ExampleHostIsNotFaccbook` and `TargetsMatchNoRule` state its verdicts. |
| `Redirect.IsFaccbookHost` | src/redirect.py:30 | No contract of its own. It is the second test, one `EndsWith` test. `ExampleHostIsNotFaccbook`, `TargetsMatchNoRule` and `MatchingIsPlainSuffix` state its verdicts. |
| `Redirect.WithHost` | src/redirect.py:27 | No contract of its own. It is the library's host setter on a value. `PrettyHostAfterWithHost` states its effect on the pretty host, and `Request.SetHost` is proved equal to it. |
| `Redirect.WikipediaRule` | src/redirect.py:16-28 | No contract of its own. It is the first `if`. `RewriteExampleHost` and `AtMostOneRewrite` state its properties. |
| `Redirect.FakebookRule` | src/redirect.py:30-41 | No contract of its own. It is the second `if`, applied to the first rule's output. `RewriteFaccbookHost` and `AtMostOneRewrite` state its properties. |
| `Redirect.Rewrite` | src/redirect.py:14-45 | No contract of its own. It is the whole hook on a value. `RewriteExampleHost`, `RewriteFaccbookHost`, `RewriteOtherHost`, `RewriteKeepsOtherFields`, `RewriteIdempotent` and `MatchingIsPlainSuffix` state its properties, and `Request.RedirectHook` is proved equal to it. |
| `Redirect.Banners` | src/redirect.py:17-40 | No contract of its own. It is the sequence of banners printed. `BannersShowEntryHost` gives its closed form, and `Request.RedirectHook` returns it. |
| `Redirect.ExampleHostIsNotFaccbook` | src/redirect.py:16-30 | A host ending in `example.com` or `example.org` never ends in `faccbook.com`. |
| `Redirect.TargetsMatchNoRule` | src/redirect.py:27-41 | Neither `en.wikipedia.org` nor the phishing host matches either test. |
| `Redirect.PrettyHostAfterWithHost` | src/redirect.py:10-12 | After a host is assigned, the pretty host is either the new host or the old pretty host. In the second case the `Host` header is unchanged. |
| `Redirect.MatchingIsPlainSuffix` | src/redirect.py:16-30 | `myexample.com` passes the first test, and a request with that pretty host ends with the Wikipedia host and path. `EXAMPLE.COM` and `example.com.attacker.net` fail both tests, and a request with either pretty host is returned unchanged. This holds for both header settings. |
| `Redirect.RewriteExampleHost` | src/redirect.py:16-28 | A request whose entry pretty host ends in `example.com` or `example.org` ends with host `en.wikipedia.org` and path `/wiki/Man-in-the-middle_attack`. This holds whatever the library does with the `Host` header. |
| `Redirect.RewriteFaccbookHost` | src/redirect.py:30-41 | A request whose entry pretty host ends in `faccbook.com` ends with the phishing host. Its path is unchanged. |
| `Redirect.RewriteOtherHost` | src/redirect.py:14-45 | A request whose pretty host matches neither test is returned unchanged in every field. |
| `Redirect.AtMostOneRewrite` | src/redirect.py:16-30 | Once the first rewrite has happened, the second test fails on the re-read pretty host. At most one rewrite happens. |
| `Redirect.RewriteKeepsOtherFields` | src/redirect.py:27-41 | The hook never changes the method, scheme, port, other headers or body. |
| `Redirect.BannersShowEntryHost` | src/redirect.py:17-40 | At most one banner is printed. Its kind matches the test that fired. It shows the pretty host from before the rewrite. |
| `Redirect.RewriteIdempotent` | src/redirect.py:27-41 | Running the hook a second time on its own output changes nothing. |
| `Redirect.Request.SetHost` | src/redirect.py:27 | Assigning the host changes the host. It changes a present `Host` header only when the library keeps the header in step. |
| `Redirect.Request.RedirectHook` | src/redirect.py:14-45 | The in-place hook leaves the request equal to `Rewrite` of its entry state. Its frame allows changes only to host, path and `Host` header. It returns the `Banners` of the entry state. It states the two redirect targets outright. When neither test matches, nothing changes and nothing is printed. |

## Left out

- src/flip-images.py, the response hook that flips images. Its substance is image decoding, rotation and re-encoding in a foreign imaging library.
- The text of the console banners. `Banner` records only which banner is printed and the host printed after it. Standard output is returned as a sequence.
- How mitmproxy derives the pretty host beyond "the `Host` header if present and non-empty, else the host". Port stripping, IPv6 brackets and HTTP/2 authority handling are library behaviour. `hostHeader` holds the host part of the header.
- Whether the library's host setter also rewrites the `Host` header or the authority. This is the `syncHostHeader` parameter. The authority is not modelled.
- The commented-out IP-address branch at src/redirect.py:43-45. It does nothing.
- The proxy engine that calls the hook: connections, TLS interception, HTTP framing and hook dispatch. None of it is part of this repository.
- DNS spoofing, which the router does outside the addon.
- Redirect.Request.RedirectHook, Redirect.Rewrite and Redirect.Banners assume that every console print at src/redirect.py:17-26 and 31-40 succeeds. In Python a print that raises, such as on a closed standard output or an unencodable host, stops the hook before the host is assigned, and the proxy then forwards the request unrewritten. That path is not modelled.
- Host names are Unicode scalar values, as Dafny's `char` is. Python strings can also hold lone surrogates, which the proxy produces when it decodes undecodable header bytes; such hosts are outside the model.
