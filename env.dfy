/** The URL configuration derived from the environment in lib/env.ts. */
module Env {
  import opened Common

  const DefaultApiBase: string := "http://localhost:5000/api"

  /** `process.env.NEXT_PUBLIC_API_URL || DefaultApiBase`: unset and "" both fall back. */
  function RawApiBase(env: Option<string>): (r: string)
    ensures Truthy(env) ==> r == env.value
    ensures !Truthy(env) ==> r == DefaultApiBase
    ensures r != ""
  {
    OrString(env, DefaultApiBase)
  }

  /** `s.replace(/\/$/, "")`: one trailing '/' is removed, nothing else. */
  function StripTrailingSlash(s: string): (r: string)
    ensures EndsWith(s, "/") ==> r + "/" == s
    ensures !EndsWith(s, "/") ==> r == s
  {
    if |s| > 0 && s[|s| - 1] == '/' then s[..|s| - 1] else s
  }

  /** Stripping undoes appending one slash, and never removes more than one character. */
  lemma StripTrailingSlashInverse(s: string)
    ensures StripTrailingSlash(s + "/") == s
    ensures |s| - 1 <= |StripTrailingSlash(s)| <= |s|
    ensures StripTrailingSlash(s + "//") == s + "/"
  {
    assert EndsWith(s + "/", "/");
    assert EndsWith(s + "//", "/");
    assert (s + "//")[..|s| + 1] == s + "/";
  }

  /** `API_BASE_URL`. */
  function ApiBaseUrl(env: Option<string>): (r: string)
    ensures Truthy(env) ==> r == StripTrailingSlash(env.value)
    ensures !Truthy(env) ==> r == DefaultApiBase
  {
    StripTrailingSlash(RawApiBase(env))
  }

  /** Where the regex /\/api(\/v1)?$/ can match: a suffix "/api" or "/api/v1". */
  predicate ApiSuffixAt(s: string, i: int) {
    0 <= i <= |s| && (s[i..] == "/api" || s[i..] == "/api/v1")
  }

  /** The regex can match at one place at most: "/api/v1" is tried first, and a string ending
      in "/api/v1" does not also end in "/api". */
  lemma ApiSuffixCases(s: string)
    ensures forall i | 0 <= i <= |s| && ApiSuffixAt(s, i) ::
      if EndsWith(s, "/api/v1") then i == |s| - 7 else EndsWith(s, "/api") && i == |s| - 4
    ensures EndsWith(s, "/api/v1") ==> ApiSuffixAt(s, |s| - 7)
    ensures EndsWith(s, "/api") ==> ApiSuffixAt(s, |s| - 4)
  {
    forall i | 0 <= i <= |s| && ApiSuffixAt(s, i)
      ensures if EndsWith(s, "/api/v1") then i == |s| - 7 else EndsWith(s, "/api") && i == |s| - 4
    {
      assert s[|s| - |s[i..]|..] == s[i..];
      if EndsWith(s, "/api/v1") {
        assert s[|s| - 1] == '1';
        assert s[i..][|s[i..]| - 1] == s[|s| - 1];
      }
    }
  }

  /** `API_ORIGIN = API_BASE_URL.replace(/\/api(\/v1)?$/, "")`: the text before the (only)
      place where that regex matches, or the whole string when it matches nowhere. */
  function ApiOrigin(base: string): (r: string)
    ensures forall i | 0 <= i <= |base| && ApiSuffixAt(base, i) :: r == base[..i]
    ensures (forall i | 0 <= i <= |base| :: !ApiSuffixAt(base, i)) ==> r == base
  {
    ApiSuffixCases(base);
    if EndsWith(base, "/api/v1") then base[..|base| - 7]
    else if EndsWith(base, "/api") then base[..|base| - 4]
    else base
  }

  lemma ApiOriginExamples()
    ensures ApiOrigin("http://localhost:5000/api") == "http://localhost:5000"
    ensures ApiOrigin("https://x.io/api/v1") == "https://x.io"
    ensures ApiOrigin("https://x.io/api/api") == "https://x.io/api"
    ensures ApiOrigin("https://x.io/apix") == "https://x.io/apix"
  {
    assert ApiSuffixAt("http://localhost:5000/api", 21);
    assert ApiSuffixAt("https://x.io/api/v1", 12);
    assert ApiSuffixAt("https://x.io/api/api", 16);
    var s := "https://x.io/apix";
    ApiSuffixCases(s);
  }

  /** `SOCKET_BASE_URL`: the configured socket URL minus one trailing '/', or `API_ORIGIN`
      when that is empty (unset, "" or "/"). */
  function SocketBaseUrl(envSocket: Option<string>, apiOrigin: string): (r: string)
    ensures (!Truthy(envSocket) || envSocket.value == "/") ==> r == apiOrigin
    ensures Truthy(envSocket) && envSocket.value != "/" ==> r == StripTrailingSlash(envSocket.value) && r != ""
    ensures r == "" ==> apiOrigin == ""
  {
    var stripped := StripTrailingSlash(OrString(envSocket, ""));
    if stripped != "" then stripped else apiOrigin
  }
}
