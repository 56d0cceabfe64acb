/**
 * The CORS middleware: which Access-Control-Allow-Origin value a request
 * gets, decided from the policy mode, the allowed-origin list and the
 * request's Origin header, and the wrapper that writes the CORS headers and
 * answers OPTIONS requests itself.
 */
module Cors {
  import opened Wrappers
  import opened Http
  import opened Settings

  const AllowOriginHeader: string := "Access-Control-Allow-Origin"
  const AllowMethodsHeader: string := "Access-Control-Allow-Methods"
  const AllowHeadersHeader: string := "Access-Control-Allow-Headers"
  const AllowedMethods: string := "GET, POST, OPTIONS"
  const AllowedHeaders: string := "Content-Type"

  const ModeAll: string := "all"
  const ModeLocalApps: string := "localapps"

  /**
   * strings.Split with a one-character separator: the pieces between
   * consecutive separators, so n separators give n + 1 pieces, and the empty
   * text gives the single empty piece.
   */
  function Split(s: string, sep: char): (parts: seq<string>)
    ensures |parts| >= 1
    ensures forall i :: 0 <= i < |parts| ==> sep !in parts[i]
    decreases |s|
  {
    if |s| == 0 then [""]
    else
      var rest := Split(s[1..], sep);
      if s[0] == sep then [""] + rest else [[s[0]] + rest[0]] + rest[1..]
  }

  /** strings.Join: the pieces with the separator between each two. */
  function Join(parts: seq<string>, sep: char): (s: string)
    requires |parts| >= 1
    decreases |parts|
  {
    if |parts| == 1 then parts[0] else parts[0] + [sep] + Join(parts[1..], sep)
  }

  /** Joining the pieces of a split gives back the text. */
  lemma {:induction false} JoinSplit(s: string, sep: char)
    ensures Join(Split(s, sep), sep) == s
    decreases |s|
  {
    if |s| > 0 {
      var rest := Split(s[1..], sep);
      JoinSplit(s[1..], sep);
      if s[0] == sep {
        assert Split(s, sep) == [""] + rest;
        assert ([""] + rest)[1..] == rest;
      } else {
        var parts := Split(s, sep);
        assert parts == [[s[0]] + rest[0]] + rest[1..];
        if |rest| > 1 {
          assert parts[1..] == rest[1..];
          assert Join(rest, sep) == rest[0] + [sep] + Join(rest[1..], sep);
        }
      }
    }
  }

  /** A text without the separator is its own single piece. */
  lemma {:induction false} SplitWithoutSeparator(s: string, sep: char)
    requires sep !in s
    ensures Split(s, sep) == [s]
    decreases |s|
  {
    if |s| > 0 {
      assert sep !in s[1..] by {
        forall i | 0 <= i < |s[1..]| ensures s[1..][i] != sep { assert s[1..][i] == s[i + 1]; }
      }
      SplitWithoutSeparator(s[1..], sep);
      assert [s[0]] + s[1..] == s;
    }
  }

  /** A separator-free piece followed by the separator splits off as the first piece. */
  lemma {:induction false} SplitAfterPiece(p: string, t: string, sep: char)
    requires sep !in p
    ensures Split(p + [sep] + t, sep) == [p] + Split(t, sep)
    decreases |p|
  {
    if |p| == 0 {
      assert p + [sep] + t == [sep] + t;
      assert ([sep] + t)[1..] == t;
    } else {
      var s := p + [sep] + t;
      assert s[0] == p[0];
      assert s[1..] == p[1..] + [sep] + t;
      assert sep !in p[1..] by {
        forall i | 0 <= i < |p[1..]| ensures p[1..][i] != sep { assert p[1..][i] == p[i + 1]; }
      }
      SplitAfterPiece(p[1..], t, sep);
      assert [p[0]] + p[1..] == p;
    }
  }

  /**
   * Splitting is the inverse of joining separator-free pieces: a list of
   * origins written with single spaces splits back into exactly that list.
   */
  lemma {:induction false} SplitJoin(parts: seq<string>, sep: char)
    requires |parts| >= 1
    requires forall i :: 0 <= i < |parts| ==> sep !in parts[i]
    ensures Split(Join(parts, sep), sep) == parts
    decreases |parts|
  {
    if |parts| == 1 {
      SplitWithoutSeparator(parts[0], sep);
    } else {
      SplitJoin(parts[1..], sep);
      SplitAfterPiece(parts[0], Join(parts[1..], sep), sep);
      assert [parts[0]] + parts[1..] == parts;
    }
  }

  /** The search loop of containsOrigin: true at the first token equal to x. */
  function Contains(tokens: seq<string>, x: string): (found: bool)
    ensures found <==> x in tokens
    decreases |tokens|
  {
    if |tokens| == 0 then false
    else if tokens[0] == x then true
    else Contains(tokens[1..], x)
  }

  /** containsOrigin: the origin equals one of the space-separated tokens of the list. */
  function ContainsOrigin(allowedOrigins: string, origin: string): (r: bool)
    ensures r <==> origin in Split(allowedOrigins, ' ')
    ensures r ==> ' ' !in origin
  {
    Contains(Split(allowedOrigins, ' '), origin)
  }

  /** Every origin written into a space-separated list is recognised by containsOrigin. */
  lemma ListedOriginContained(origins: seq<string>, i: nat)
    requires |origins| >= 1 && i < |origins|
    requires forall j :: 0 <= j < |origins| ==> ' ' !in origins[j]
    ensures ContainsOrigin(Join(origins, ' '), origins[i])
  {
    SplitJoin(origins, ' ');
  }

  /** The empty list splits into one empty token, so it contains exactly the empty origin. */
  lemma EmptyListContainsOnlyEmpty(origin: string)
    ensures ContainsOrigin("", origin) <==> origin == ""
  {
  }

  /** The localapps test: app:// or http://localhost prefixes, the whole list, or one of its tokens. */
  predicate LocalAppsAllows(allowedOrigins: string, origin: string) {
    || "app://" <= origin
    || "http://localhost" <= origin
    || origin == allowedOrigins
    || ContainsOrigin(allowedOrigins, origin)
  }

  /**
   * The Access-Control-Allow-Origin value: "*" under mode "all"; the request
   * origin, verbatim, under mode "localapps" when it passes the localapps
   * test; otherwise (including any unknown mode) no header.
   */
  function AllowOrigin(mode: string, allowedOrigins: string, origin: string): (r: Option<string>)
    ensures mode == ModeAll ==> r == Some("*")
    ensures mode != ModeAll && mode != ModeLocalApps ==> r == None
    ensures mode == ModeLocalApps ==> (r == Some(origin) <==> LocalAppsAllows(allowedOrigins, origin))
    ensures mode == ModeLocalApps && !LocalAppsAllows(allowedOrigins, origin) ==> r == None
    ensures r.Some? ==> r.value == "*" || r.value == origin
  {
    if mode == ModeAll then Some("*")
    else if mode == ModeLocalApps && LocalAppsAllows(allowedOrigins, origin) then Some(origin)
    else None
  }

  /** An app:// origin is echoed back under localapps, whatever the list. */
  lemma AppOriginEchoed(allowedOrigins: string, rest: string)
    ensures AllowOrigin(ModeLocalApps, allowedOrigins, "app://" + rest) == Some("app://" + rest)
  {
  }

  /**
   * With a single listed origin, an origin that is neither local nor that
   * one gets no Allow-Origin header.
   */
  lemma UnlistedOriginRefused(listed: string, origin: string)
    requires ' ' !in listed && origin != listed
    requires !("app://" <= origin) && !("http://localhost" <= origin)
    ensures AllowOrigin(ModeLocalApps, listed, origin) == None
  {
    SplitWithoutSeparator(listed, ' ');
  }

  /** The worked case: http://evil.example is refused when only http://good.example is listed. */
  lemma EvilOriginRefused()
    ensures AllowOrigin(ModeLocalApps, "http://good.example", "http://evil.example") == None
  {
    var good, evil := "http://good.example", "http://evil.example";
    assert ' ' !in good by {
      forall i | 0 <= i < |good| ensures good[i] != ' ' { }
    }
    assert good[7] != evil[7];
    assert "app://"[0] != evil[0];
    assert "http://localhost"[7] != evil[7];
    UnlistedOriginRefused(good, evil);
  }

  /** Each origin of a space-separated list is echoed back under localapps. */
  lemma ListedOriginEchoed()
    ensures AllowOrigin(ModeLocalApps, "http://a.example http://b.example", "http://b.example") == Some("http://b.example")
  {
    var origins := ["http://a.example", "http://b.example"];
    assert Join(origins[1..], ' ') == "http://b.example";
    assert Join(origins, ' ') == "http://a.example http://b.example";
    ListedOriginContained(origins, 1);
  }

  /** With the default empty list, a request without an Origin header gets an empty Allow-Origin value. */
  lemma MissingOriginWithDefaultList()
    ensures AllowOrigin(ModeLocalApps, DefaultAllowedOrigin, "") == Some("")
  {
  }

  /**
   * enableCORS, up to the call of the inner handler: sets the Allow-Origin
   * header when the decision gives a value, always sets Allow-Methods and
   * Allow-Headers, and answers an OPTIONS request with 200 itself. The result
   * says whether the inner handler is to run.
   */
  method EnableCors(store: SettingsStore, w: ResponseWriter, req: Request) returns (proceed: bool)
    modifies w
    ensures proceed <==> req.verb != MethodOptions
    ensures var decided := AllowOrigin(store.corsPolicyMode, store.allowedOrigin, req.origin);
            var withOrigin := if decided.Some? then old(w.header)[AllowOriginHeader := decided.value] else old(w.header);
            w.header == withOrigin[AllowMethodsHeader := AllowedMethods][AllowHeadersHeader := AllowedHeaders]
    ensures w.status == if proceed || old(w.status).Some? then old(w.status) else Some(StatusOK)
    ensures w.body == old(w.body)
  {
    var origin := req.origin;
    if store.corsPolicyMode == ModeAll {
      w.SetHeader(AllowOriginHeader, "*");
    } else if store.corsPolicyMode == ModeLocalApps {
      if "app://" <= origin || "http://localhost" <= origin || origin == store.allowedOrigin
         || ContainsOrigin(store.allowedOrigin, origin) {
        w.SetHeader(AllowOriginHeader, origin);
      }
    }
    w.SetHeader(AllowMethodsHeader, AllowedMethods);
    w.SetHeader(AllowHeadersHeader, AllowedHeaders);
    if req.verb == MethodOptions {
      w.WriteHeader(StatusOK);
      return false;
    }
    return true;
  }

  /**
   * The update endpoint stores any mode it is given; once an unknown mode is
   * stored, no request gets an Allow-Origin header.
   */
  method UnknownModeStored(store: SettingsStore, w: ResponseWriter, mode: string, origins: string, requestOrigin: string)
    returns (decided: Option<string>)
    requires w.status.None?
    requires mode != ModeAll && mode != ModeLocalApps
    modifies store, w
    ensures store.corsPolicyMode == mode && store.allowedOrigin == origins
    ensures w.status == Some(StatusOK)
    ensures decided == AllowOrigin(store.corsPolicyMode, store.allowedOrigin, requestOrigin)
    ensures decided == None
  {
    store.HandleUpdateSettings(w, MethodPost, Decoded(SettingsData(mode, origins, "")));
    decided := AllowOrigin(store.corsPolicyMode, store.allowedOrigin, requestOrigin);
  }
}
