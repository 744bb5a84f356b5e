/**
 * The endpoint resolver `buildApiUrl`: turns the optional environment value of
 * one backend into the base URL the store talks to.
 */
module ApiUrl {
  import opened Js

  predicate StartsWith(s: string, prefix: string)
  {
    |prefix| <= |s| && s[..|prefix|] == prefix
  }

  /** The value already carries an explicit `http://` or `https://` scheme. */
  predicate HasScheme(s: string)
  {
    StartsWith(s, "http://") || StartsWith(s, "https://")
  }

  /** `!envVar`: the variable is unset or set to the empty string. */
  predicate IsFalsy(envVar: Option<string>)
  {
    envVar == None || envVar == Some("")
  }

  /** The four ordered cases of the resolver: unset gives the local default,
      a value with a scheme is kept, a bare service name (no dot) becomes a
      Render host, anything else is taken as a domain served over https. */
  function BuildApiUrl(envVar: Option<string>, defaultLocalUrl: string): (url: string)
    ensures IsFalsy(envVar) ==> url == defaultLocalUrl
    ensures !IsFalsy(envVar) && HasScheme(envVar.value) ==> url == envVar.value
    ensures !IsFalsy(envVar) && !HasScheme(envVar.value) && '.' !in envVar.value ==>
              url == "https://" + envVar.value + ".onrender.com"
    ensures !IsFalsy(envVar) && !HasScheme(envVar.value) && '.' in envVar.value ==>
              url == "https://" + envVar.value
  {
    if IsFalsy(envVar) then
      defaultLocalUrl
    else if HasScheme(envVar.value) then
      envVar.value
    else if '.' !in envVar.value then
      "https://" + envVar.value + ".onrender.com"
    else
      "https://" + envVar.value
  }

  /** Whatever non-empty value is configured, the resolved base URL is fully
      qualified: it starts with `http://` or `https://` and is never empty. */
  lemma ResolvedIsQualified(envVar: string, defaultLocalUrl: string)
    requires envVar != ""
    ensures HasScheme(BuildApiUrl(Some(envVar), defaultLocalUrl))
    ensures BuildApiUrl(Some(envVar), defaultLocalUrl) != ""
  {
    var url := BuildApiUrl(Some(envVar), defaultLocalUrl);
    if !HasScheme(envVar) {
      assert url[..8] == "https://";
    }
  }

  /** Resolving is idempotent: feeding a resolved URL back in as the
      configuration value gives the same URL, whatever the default. */
  lemma ResolveIdempotent(envVar: string, default1: string, default2: string)
    requires envVar != ""
    ensures var url := BuildApiUrl(Some(envVar), default1);
            BuildApiUrl(Some(url), default2) == url
  {
    ResolvedIsQualified(envVar, default1);
  }

  /** A bare Render service name and its spelled-out `.onrender.com` domain
      resolve to the same base URL. */
  lemma ServiceNameMatchesRenderDomain(name: string, defaultLocalUrl: string)
    requires name != "" && '.' !in name && !HasScheme(name)
    ensures BuildApiUrl(Some(name), defaultLocalUrl)
         == BuildApiUrl(Some(name + ".onrender.com"), defaultLocalUrl)
  {
    var domain := name + ".onrender.com";
    assert domain[|name|] == '.';
    assert '.' in domain;
    NoSchemeAfterDotlessPrefix(name, ".onrender.com", "http://");
    NoSchemeAfterDotlessPrefix(name, ".onrender.com", "https://");
  }

  /** A scheme prefix has no dot in it, so a string whose dot-free head does not
      start with the scheme cannot gain it by appending text that starts with a dot. */
  lemma NoSchemeAfterDotlessPrefix(name: string, rest: string, scheme: string)
    requires '.' !in name && !StartsWith(name, scheme) && '.' !in scheme
    requires |rest| > 0 && rest[0] == '.'
    ensures !StartsWith(name + rest, scheme)
  {
    var s := name + rest;
    if |scheme| <= |s| {
      if |scheme| <= |name| {
        assert s[..|scheme|] == name[..|scheme|];
      } else {
        assert s[..|scheme|][|name|] == '.';
      }
    }
  }
}
