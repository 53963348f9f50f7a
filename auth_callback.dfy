/**
 * The OAuth callback (`GET /auth/callback?code=...&next=...`): exchange
 * the code for a session, then redirect to the profile form when the
 * account has no Instagram handle yet, or to the requested `next` page.
 *
 * The handler builds the target by plain concatenation `origin + next`.
 * `AsWritten` models that and `AsWrittenLeavesOrigin` exhibits a `next`
 * that sends the browser to another host. `Redirect`, which the rest of
 * the model uses, only follows a `next` that is a path on the same site
 * and is proved to keep the host of the origin for every input.
 */
module AuthCallback {
  import opened Wrappers
  import opened Strings

  /** What the profile query answered: no row (or an error), or a row with its optional handle. */
  datatype ProfileAnswer = NoProfileRow | ProfileRow(igUsername: Option<string>)

  /** What the session exchange and the follow-up reads answered. */
  datatype CallbackIo = CallbackIo(exchangeOk: bool, user: Option<string>, profile: ProfileAnswer)

  const ErrorPath := "/auth/auth-code-error"
  const CompleteProfilePath := "/complete-profile"

  /** The signed-in account still has to pick its Instagram handle. */
  predicate NeedsProfile(io: CallbackIo)
  {
    io.user.Some? && !(io.profile.ProfileRow? && Truthy(io.profile.igUsername))
  }

  /** The path part appended to the origin, with the source's decision order. */
  function TargetPath(code: Option<string>, next: string, io: CallbackIo): (path: string)
    ensures !Truthy(code) || !io.exchangeOk ==> path == ErrorPath
    ensures Truthy(code) && io.exchangeOk && NeedsProfile(io) ==> path == CompleteProfilePath
    ensures Truthy(code) && io.exchangeOk && !NeedsProfile(io) ==> path == next
  {
    if !Truthy(code) || !io.exchangeOk then ErrorPath
    else if NeedsProfile(io) then CompleteProfilePath
    else next
  }

  /** `searchParams.get('next') ?? '/'`. */
  function NextParam(next: Option<string>): (r: string)
    ensures next.Some? ==> r == next.value
    ensures next.None? ==> r == "/"
  {
    next.GetOr("/")
  }

  /** The redirect target as written: `${origin}${next}` with `next` taken verbatim. */
  function AsWritten(origin: string, code: Option<string>, next: Option<string>, io: CallbackIo): (url: string)
    ensures StartsWith(url, origin)
    ensures url[|origin|..] == TargetPath(code, NextParam(next), io)
  {
    origin + TargetPath(code, NextParam(next), io)
  }

  /** `next` is followed only when it is a path on this site. */
  function SafeNext(next: string): (r: string)
    ensures StartsWith(r, "/")
    ensures StartsWith(next, "/") ==> r == next
    ensures !StartsWith(next, "/") ==> r == "/"
  {
    if StartsWith(next, "/") then next else "/"
  }

  /** The corrected redirect target: as written, but with `SafeNext` applied to `next`. */
  function Redirect(origin: string, code: Option<string>, next: Option<string>, io: CallbackIo): (url: string)
    ensures StartsWith(url, origin)
    ensures url[|origin|..] == TargetPath(code, SafeNext(NextParam(next)), io)
    ensures StartsWith(url[|origin|..], "/")
  {
    origin + TargetPath(code, SafeNext(NextParam(next)), io)
  }

  // ------------------------------------------------------------ URL hosts

  /** Characters that end the authority of a special URL (WHATWG URL Standard, authority state). */
  predicate EndsAuthority(c: char)
  {
    c == '/' || c == '?' || c == '#' || c == '\\'
  }

  /** A host with no user-info marker and nothing that would end the authority. */
  predicate PlainHost(h: string)
  {
    h != "" && '@' !in h && forall i :: 0 <= i < |h| ==> !EndsAuthority(h[i])
  }

  /** The authority: everything up to the first authority-ending character. */
  function Authority(rest: string): (a: string)
    ensures |a| <= |rest| && a == rest[..|a|]
    ensures forall i :: 0 <= i < |a| ==> !EndsAuthority(a[i])
    decreases |rest|
  {
    if rest == [] || EndsAuthority(rest[0]) then [] else [rest[0]] + Authority(rest[1..])
  }

  /** The host part of an authority: what follows its last `@` (the user-info separator). */
  function HostOfAuthority(a: string): (h: string)
    ensures |h| <= |a| && h == a[|a| - |h|..]
    ensures '@' !in h
    decreases |a|
  {
    if '@' in a then HostOfAuthority(a[1..]) else a
  }

  /** The host a browser navigates to for `scheme://` + `rest`. */
  function Host(scheme: string, url: string): string
    requires StartsWith(url, scheme + "://")
  {
    HostOfAuthority(Authority(url[|scheme + "://"|..]))
  }

  lemma {:induction false} AuthorityOfPlainHost(h: string, path: string)
    requires forall i :: 0 <= i < |h| ==> !EndsAuthority(h[i])
    requires path == [] || EndsAuthority(path[0])
    ensures Authority(h + path) == h
    decreases |h|
  {
    if h != [] {
      assert (h + path)[1..] == h[1..] + path;
      AuthorityOfPlainHost(h[1..], path);
    } else {
      assert h + path == path;
    }
  }

  lemma HostOfPlainAuthority(h: string)
    requires '@' !in h
    ensures HostOfAuthority(h) == h
  {
  }

  /** An origin with a plain host followed by a path (or nothing) keeps that host. */
  lemma HostOfOriginAndPath(scheme: string, host: string, path: string)
    requires PlainHost(host)
    requires path == [] || EndsAuthority(path[0])
    ensures StartsWith(scheme + "://" + host + path, scheme + "://")
    ensures Host(scheme, scheme + "://" + host + path) == host
  {
    var url := scheme + "://" + host + path;
    assert url == (scheme + "://") + (host + path);
    assert url[|scheme + "://"|..] == host + path;
    AuthorityOfPlainHost(host, path);
    HostOfPlainAuthority(host);
  }

  /**
   * The corrected redirect never leaves the site: for an origin
   * `scheme://host` with a plain host, the target's host is that host,
   * whatever `code`, `next` and the store answered.
   */
  lemma RedirectKeepsHost(scheme: string, host: string, code: Option<string>, next: Option<string>, io: CallbackIo)
    requires PlainHost(host)
    ensures var url := Redirect(scheme + "://" + host, code, next, io);
            StartsWith(url, scheme + "://") && Host(scheme, url) == host
  {
    var origin := scheme + "://" + host;
    var path := Redirect(origin, code, next, io)[|origin|..];
    assert StartsWith(path, "/");
    assert Redirect(origin, code, next, io) == origin + path;
    HostOfOriginAndPath(scheme, host, path);
  }

  lemma {:induction false} HostSuffixAfterAt(prefix: string, h: string)
    requires prefix != [] && prefix[|prefix| - 1] == '@'
    requires '@' !in h
    ensures HostOfAuthority(prefix + h) == h
    decreases |prefix|
  {
    var a := prefix + h;
    assert a[|prefix| - 1] == '@';
    assert a[1..] == prefix[1..] + h;
    if |prefix| == 1 {
      assert a[1..] == h;
    } else {
      HostSuffixAfterAt(prefix[1..], h);
    }
  }

  /**
   * As written, a `next` of `@` followed by another host moves the
   * origin's host into the user-info part of the target: the browser
   * goes to the other host.
   */
  lemma AsWrittenUserInfoRedirect(scheme: string, host: string, evil: string, code: string, io: CallbackIo)
    requires PlainHost(host) && PlainHost(evil)
    requires code != "" && io.exchangeOk && !NeedsProfile(io)
    ensures var url := AsWritten(scheme + "://" + host, Some(code), Some("@" + evil), io);
            StartsWith(url, scheme + "://") && Host(scheme, url) == evil
  {
    var url := AsWritten(scheme + "://" + host, Some(code), Some("@" + evil), io);
    assert url == scheme + "://" + ((host + "@") + evil);
    assert url[|scheme + "://"|..] == (host + "@") + evil;
    AuthorityOfPlainHost((host + "@") + evil, []);
    assert (host + "@") + evil + [] == (host + "@") + evil;
    HostSuffixAfterAt(host + "@", evil);
  }

  /**
   * For instance, a signed-in user with a handle who follows
   * `https://lifeloop.app/auth/callback?code=c&next=@evil.example` is sent
   * to `https://lifeloop.app@evil.example`, whose host is `evil.example`.
   */
  lemma AsWrittenLeavesOrigin()
    ensures var io := CallbackIo(true, Some("user-1"), ProfileRow(Some("maya")));
            var url := AsWritten("https" + "://" + "lifeloop.app", Some("c"), Some("@" + "evil.example"), io);
            && StartsWith(url, "https://")
            && Host("https", url) == "evil.example"
  {
    var io := CallbackIo(true, Some("user-1"), ProfileRow(Some("maya")));
    assert PlainHost("lifeloop.app");
    assert PlainHost("evil.example");
    AsWrittenUserInfoRedirect("https", "lifeloop.app", "evil.example", "c", io);
  }
}
