/** The link filter of anonymous messages (cogs/anonymous.py): the host of
    a URL and the domain whitelist, the Discord invite search, the
    replacement of links that are not whitelisted, and the guards of
    `anon`. */
module Anonymous {
  import opened PyText

  // ---------------------------------------------------------------- hosts

  /** The whitelist of the cog. */
  const AllowedDomains: set<string> := {
    "youtube.com", "youtu.be", "google.com", "github.com",
    "spotify.com", "wikipedia.org", "stackoverflow.com"
  }

  /** The prefixes `is_allowed_url` strips, in order, each at most once. */
  const Prefixes: seq<string> := ["https://", "http://", "www."]

  function StripPrefix(s: string, p: string): (r: string)
    ensures StartsWith(s, p) ==> s == p + r
    ensures !StartsWith(s, p) ==> r == s
  {
    if StartsWith(s, p) then s[|p|..] else s
  }

  /** Strips the prefixes in order, each when the text starts with it. */
  function StripAll(s: string, ps: seq<string>): string {
    if ps == [] then s else StripPrefix(StripAll(s, ps[..|ps| - 1]), ps[|ps| - 1])
  }

  /** The host `is_allowed_url` checks: the lowercased URL with the
      prefixes stripped, up to its first '/'. */
  function Host(url: string): (h: string)
    ensures !Contains(h, "/")
  {
    var parts := Split(StripAll(Lower(url), Prefixes), "/");
    SplitHead(StripAll(Lower(url), Prefixes), "/");
    parts[0]
  }

  /** The whitelist as a list, for the suffix test below. */
  const DomainList: seq<string> := [
    "youtube.com", "youtu.be", "google.com", "github.com",
    "spotify.com", "wikipedia.org", "stackoverflow.com"
  ]

  /** `any(h.endswith(d) for d in ds)`. */
  predicate EndsWithAny(h: string, ds: seq<string>) {
    ds != [] && (EndsWith(h, ds[0]) || EndsWithAny(h, ds[1..]))
  }

  lemma {:induction false} EndsWithAnyIff(h: string, ds: seq<string>)
    ensures EndsWithAny(h, ds) <==> exists d :: d in ds && EndsWith(h, d)
  {
    if ds != [] {
      EndsWithAnyIff(h, ds[1..]);
      assert forall d :: d in ds <==> d == ds[0] || d in ds[1..];
    }
  }

  /** A URL is allowed when its host ends with a whitelisted domain. */
  predicate Allowed(url: string) {
    EndsWithAny(Host(url), DomainList)
  }

  /** `Allowed` is the suffix test against the whitelist set. */
  lemma AllowedIff(url: string)
    ensures Allowed(url) <==> exists d :: d in AllowedDomains && EndsWith(Host(url), d)
  {
    EndsWithAnyIff(Host(url), DomainList);
    assert forall d :: d in DomainList <==> d in AllowedDomains;
  }

  /** `is_allowed_url`: the loop over the prefixes, then the suffix test. */
  method IsAllowedUrl(url: string) returns (ok: bool)
    ensures ok <==> Allowed(url)
  {
    var domain := Lower(url);
    var i := 0;
    while i < |Prefixes|
      invariant 0 <= i <= |Prefixes|
      invariant domain == StripAll(Lower(url), Prefixes[..i])
    {
      if StartsWith(domain, Prefixes[i]) {
        domain := domain[|Prefixes[i]|..];
      }
      assert Prefixes[..i + 1][..i] == Prefixes[..i];
      i := i + 1;
    }
    assert Prefixes[..|Prefixes|] == Prefixes;
    domain := Split(domain, "/")[0];
    ok := exists d :: d in AllowedDomains && EndsWith(domain, d);
    AllowedIff(url);
  }

  /** The letter case of a URL never matters. */
  lemma AllowedIgnoresCase(url: string)
    ensures Allowed(Lower(url)) <==> Allowed(url)
  {
    LowerIdempotent(url);
  }

  lemma LowerAppend(a: string, b: string)
    ensures Lower(a + b) == Lower(a) + Lower(b)
  {
  }

  lemma LowerOfLower(s: string)
    requires forall i :: 0 <= i < |s| ==> !('A' <= s[i] <= 'Z')
    ensures Lower(s) == s
  {
  }

  /** Lowercasing leaves a lowercase scheme and the slash alone. */
  lemma LowerFullUrl(w: string, host: string, path: string)
    requires forall i :: 0 <= i < |w| ==> !('A' <= w[i] <= 'Z')
    ensures Lower(w + host + "/" + path) == w + Lower(host) + "/" + Lower(path)
  {
    var x := w + host + "/" + path;
    var r := w + Lower(host) + "/" + Lower(path);
    forall i | 0 <= i < |x| ensures Lower(x)[i] == r[i] {
      if i < |w| {
        assert x[i] == w[i];
      } else if i < |w| + |host| {
        assert x[i] == host[i - |w|];
      } else if i == |w| + |host| {
        assert x[i] == '/';
      } else {
        assert x[i] == path[i - |w| - |host| - 1];
      }
    }
  }

  lemma StripFullUrl(rest: string)
    ensures StripAll("https://www." + rest, Prefixes) == rest
  {
    var t := "https://www." + rest;
    assert Prefixes[..3][..2] == Prefixes[..2] && Prefixes[..2][..1] == Prefixes[..1];
    assert Prefixes[..1][..0] == [];
    assert Prefixes[..3] == Prefixes;
    assert StartsWith(t, "https://");
    var t1 := "www." + rest;
    assert t[8..] == t1;
    assert StripAll(t, Prefixes[..1]) == t1;
    assert !StartsWith(t1, "http://") by { assert t1[0] != "http://"[0]; }
    assert StripAll(t, Prefixes[..2]) == t1;
    assert StartsWith(t1, "www.");
    assert t1[4..] == rest;
  }

  lemma SplitAtFirstSlash(h: string, rest: string)
    requires '/' !in h
    ensures Split(h + "/" + rest, "/")[0] == h
  {
    var t := h + "/" + rest;
    assert t[|h|..|h| + 1] == "/";
    forall k | 0 <= k < |h| ensures !OccursAt(t, "/", k) {
      assert t[k] == h[k];
    }
    FindIs(t, "/", |h|);
    assert t[..|h|] == h;
  }

  /** The host of `https://www.` + host + `/` + path is the lowercased host
      when it holds no '/'. */
  lemma HostOfFullUrl(host: string, path: string)
    requires '/' !in host
    ensures Host("https://www." + host + "/" + path) == Lower(host)
  {
    var lh, lp := Lower(host), Lower(path);
    LowerUrl(host, path);
    StripFullUrl(lh + "/" + lp);
    NoSlashLower(host);
    SplitAtFirstSlash(lh, lp);
  }

  lemma LowerUrl(host: string, path: string)
    ensures Lower("https://www." + host + "/" + path) == "https://www." + (Lower(host) + "/" + Lower(path))
  {
    SchemeHasNoUpper();
    LowerFullUrl("https://www.", host, path);
  }

  lemma SchemeHasNoUpper()
    ensures var w := "https://www."; forall i :: 0 <= i < |w| ==> !('A' <= w[i] <= 'Z')
  {
  }

  lemma NoSlashLower(s: string)
    requires '/' !in s
    ensures '/' !in Lower(s)
  {
    forall i | 0 <= i < |s| ensures Lower(s)[i] != '/' {
      assert s[i] != '/';
    }
  }

  /** The whitelist test is a plain suffix test: any host ending in a
      whitelisted domain passes, `notgithub.com` as well as `github.com`. */
  lemma SuffixTestOnly(host: string, path: string)
    requires '/' !in host && EndsWith(Lower(host), "github.com")
    ensures Allowed("https://www." + host + "/" + path)
  {
    HostOfFullUrl(host, path);
    AllowedIff("https://www." + host + "/" + path);
    assert "github.com" in AllowedDomains;
  }

  // -------------------------------------------------------------- invites

  predicate IsAlnum(c: char) {
    'a' <= c <= 'z' || 'A' <= c <= 'Z' || '0' <= c <= '9'
  }

  /** An invite of `discord_invite_pattern` starts at `p` of the lowercased
      text `t`: `discord.gg|io|me|li/` or `discordapp.com/invite/`, then at
      least one letter or digit. The optional `https://` and `www.` in
      front do not change whether the search finds a match. */
  predicate InviteAt(t: string, p: nat)
    requires p <= |t|
  {
    var u := t[p..];
    || (StartsWith(u, "discord.") && |u| >= 12 && u[8..10] in {"gg", "io", "me", "li"}
        && u[10] == '/' && IsAlnum(u[11]))
    || (StartsWith(u, "discordapp.com/invite/") && |u| >= 23 && IsAlnum(u[22]))
  }

  function InviteFrom(t: string, p: nat): (r: bool)
    requires p <= |t|
    decreases |t| - p
    ensures r <==> exists q :: p <= q <= |t| && InviteAt(t, q)
  {
    InviteAt(t, p) || (p < |t| && InviteFrom(t, p + 1))
  }

  /** `discord_invite_pattern.search(message)`, ignoring letter case. */
  predicate HasInvite(message: string) {
    InviteFrom(Lower(message), 0)
  }

  /** An invite anywhere in the message, spelt in any letter case, is
      found. */
  lemma InviteFound(pre: string, word: string, domain: string, code: char, post: string)
    requires Lower(word) == "discord." && domain in {"gg", "io", "me", "li"} && IsAlnum(code)
    ensures HasInvite(pre + word + domain + "/" + [code] + post)
  {
    InviteTail(domain, code, post);
    InviteFoundIn(pre, word, domain, code, post);
  }

  /** What may follow "discord." in an invite: a domain, a slash and a
      letter or digit. */
  predicate InviteShape(b: string) {
    |b| >= 4 && b[..2] in {"gg", "io", "me", "li"} && b[2] == '/' && IsAlnum(b[3])
  }

  lemma InviteFoundIn(pre: string, word: string, domain: string, code: char, post: string)
    requires Lower(word) == "discord." && InviteShape(Lower(domain + "/" + [code] + post))
    ensures HasInvite(pre + word + domain + "/" + [code] + post)
  {
    var tail := domain + "/" + [code] + post;
    assert pre + word + domain + "/" + [code] + post == pre + word + tail;
    LowerThree(pre, word, tail);
    InviteAtHere(Lower(pre), Lower(tail));
    InviteAtFound(pre + word + tail, |pre|);
  }

  lemma LowerThree(a: string, b: string, c: string)
    ensures Lower(a + b + c) == Lower(a) + Lower(b) + Lower(c)
  {
    LowerAppend(a + b, c);
    LowerAppend(a, b);
  }

  /** What follows "discord." in an invite keeps its shape when lowered. */
  lemma InviteTail(domain: string, code: char, post: string)
    requires domain in {"gg", "io", "me", "li"} && IsAlnum(code)
    ensures InviteShape(Lower(domain + "/" + [code] + post))
  {
    var tail := domain + "/" + [code] + post;
    var lt := Lower(tail);
    assert tail[0] == domain[0] && tail[1] == domain[1] && tail[2] == '/' && tail[3] == code;
    assert lt[..2] == domain;
  }

  /** The invite shape right after `a`. */
  lemma InviteAtHere(a: string, b: string)
    requires InviteShape(b)
    ensures InviteAt(a + "discord." + b, |a|)
  {
    var u := "discord." + b;
    assert (a + "discord." + b)[|a|..] == u;
    assert u[..8] == "discord.";
    assert u[8..10] == b[..2];
    assert u[10] == b[2] && u[11] == b[3];
  }

  /** An invite at any position of the lowered message is found. */
  lemma InviteAtFound(s: string, p: nat)
    requires p <= |s| && InviteAt(Lower(s), p)
    ensures HasInvite(s)
  {
  }

  // ----------------------------------------------------------------- links

  /** A character of the effective `url_pattern`'s class: letters, digits,
      the range `$` to `_`, `@.&+`, `!*(),`. The `%XX` alternative adds
      nothing, `%` being in the range. */
  predicate IsUrlChar(c: char) {
    || 'a' <= c <= 'z' || 'A' <= c <= 'Z' || '0' <= c <= '9'
    || '$' <= c <= '_' || c in "@.&+" || c in "!*(),"
  }

  /** The number of URL characters from index `i` on. */
  function UrlCharRun(s: string, i: nat): (n: nat)
    requires i <= |s|
    decreases |s| - i
    ensures i + n <= |s|
    ensures forall k :: i <= k < i + n ==> IsUrlChar(s[k])
    ensures i + n < |s| ==> !IsUrlChar(s[i + n])
  {
    if i < |s| && IsUrlChar(s[i]) then 1 + UrlCharRun(s, i + 1) else 0
  }

  /** The length of the `url_pattern` match at index `i`, if any:
      `http://` or `https://` followed by the longest run of URL
      characters, which must not be empty. */
  function UrlAt(s: string, i: nat): (r: Option<nat>)
    requires i <= |s|
    ensures r.Some? ==> 0 < r.value && i + r.value <= |s|
    ensures r.Some? ==> OccursAt(s, "http://", i) || OccursAt(s, "https://", i)
  {
    var scheme := if OccursAt(s, "http://", i) then 7 else if OccursAt(s, "https://", i) then 8 else 0;
    if scheme == 0 then None
    else
      var run := UrlCharRun(s, i + scheme);
      if run == 0 then None else Some(scheme + run)
  }

  const Blocked := "[Ссылка заблокирована]"

  /** `replace_url`: an allowed URL is kept, any other is blocked. */
  function Verdict(url: string): string {
    if Allowed(url) then url else Blocked
  }

  /** `url_pattern.sub(repl, message)` from index `i`: scanning from the
      left, each match is replaced by `repl` of it and the scan resumes
      after it; any other character is kept. */
  function SubFrom(s: string, i: nat, repl: string -> string): string
    requires i <= |s|
    decreases |s| - i
  {
    if i == |s| then []
    else match UrlAt(s, i)
      case Some(n) => repl(s[i..i + n]) + SubFrom(s, i + n, repl)
      case None => [s[i]] + SubFrom(s, i + 1, repl)
  }

  /** The substitution `filter_links` makes, with `replace_url` as the
      callback. */
  function FilterUrls(s: string): string {
    SubFrom(s, 0, Verdict)
  }

  /** `filter_links`: the message and whether it holds an invite. */
  function FilterLinks(message: string): (r: (string, bool))
    ensures r.1 <==> HasInvite(message)
    ensures r.1 ==> r.0 == message
    ensures !r.1 ==> r.0 == FilterUrls(message)
  {
    if HasInvite(message) then (message, true) else (FilterUrls(message), false)
  }

  lemma SubPlainChar(s: string, i: nat, repl: string -> string)
    requires i < |s| && UrlAt(s, i).None?
    ensures SubFrom(s, i, repl) == [s[i]] + SubFrom(s, i + 1, repl)
  {
  }

  lemma SubLink(s: string, i: nat, n: nat, repl: string -> string)
    requires i < |s| && UrlAt(s, i) == Some(n)
    ensures SubFrom(s, i, repl) == repl(s[i..i + n]) + SubFrom(s, i + n, repl)
  {
    match UrlAt(s, i)
    case Some(m) =>
      assert m == n;
  }

  /** Text before the first link passes unchanged. */
  lemma {:induction false} SubSkipsPlainText(s: string, i: nat, p: nat, repl: string -> string)
    requires i <= p <= |s|
    requires forall q :: i <= q < p ==> UrlAt(s, q).None?
    ensures SubFrom(s, i, repl) == s[i..p] + SubFrom(s, p, repl)
    decreases p - i
  {
    if i < p {
      var f := SubFrom(s, p, repl);
      calc {
        SubFrom(s, i, repl);
        { SubPlainChar(s, i, repl); }
        [s[i]] + SubFrom(s, i + 1, repl);
        { SubSkipsPlainText(s, i + 1, p, repl); }
        [s[i]] + (s[i + 1..p] + f);
        { assert [s[i]] + s[i + 1..p] == s[i..p]; }
        s[i..p] + f;
      }
    } else {
      assert s[i..p] == [];
    }
  }

  /** Text before the first link passes unchanged, the first link is
      replaced by its verdict, and filtering resumes right after it. */
  lemma FilterAtFirstUrl(s: string, p: nat, n: nat)
    requires p < |s| && UrlAt(s, p) == Some(n)
    requires forall q :: 0 <= q < p ==> UrlAt(s, q).None?
    ensures FilterUrls(s) == s[..p] + Verdict(s[p..p + n]) + SubFrom(s, p + n, Verdict)
  {
    var v, f := Verdict(s[p..p + n]), SubFrom(s, p + n, Verdict);
    calc {
      FilterUrls(s);
      SubFrom(s, 0, Verdict);
      { SubSkipsPlainText(s, 0, p, Verdict); }
      s[0..p] + SubFrom(s, p, Verdict);
      { SubLink(s, p, n, Verdict); }
      s[0..p] + (v + f);
      { assert s[0..p] == s[..p]; }
      s[..p] + v + f;
    }
  }

  /** Text with neither `http://` nor `https://` in it is left unchanged;
      in particular a bare domain such as `www.example.com` is not
      filtered. */
  lemma NoSchemeUnchanged(s: string)
    requires !Contains(s, "http://") && !Contains(s, "https://")
    ensures FilterUrls(s) == s
  {
    ContainsIff(s, "http://");
    ContainsIff(s, "https://");
    calc {
      FilterUrls(s);
      SubFrom(s, 0, Verdict);
      { SubSkipsPlainText(s, 0, |s|, Verdict); }
      s[0..|s|] + SubFrom(s, |s|, Verdict);
      { assert s[0..|s|] == s; }
      s;
    }
  }

  // ----------------------------------------------------------------- anon

  datatype AnonReply = RecipientIsBot | InviteRefused | Delivered(text: string) | DirectMessagesClosed

  /** `anon`: bots are refused first, then messages with an invite; the rest
      is delivered filtered unless the recipient does not accept direct
      messages. */
  function Anon(message: string, recipientIsBot: bool, dmOpen: bool): (r: AnonReply)
    ensures r == RecipientIsBot <==> recipientIsBot
    ensures r == InviteRefused <==> !recipientIsBot && HasInvite(message)
    ensures r.Delivered? <==> !recipientIsBot && !HasInvite(message) && dmOpen
    ensures r.Delivered? ==> r.text == FilterUrls(message)
  {
    if recipientIsBot then RecipientIsBot
    else
      var (filtered, invite) := FilterLinks(message);
      if invite then InviteRefused
      else if dmOpen then Delivered(filtered)
      else DirectMessagesClosed
  }
}
