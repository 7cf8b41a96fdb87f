/** The WFS request builders of LDSReplicate: one variant for the 1.0.0/1.1.0 grammar and one
    for 2.0.0. Each builds key-value-pair requests (GetCapabilities, GetFeature, the
    incremental "-changeset" GetFeature with GeoServer `viewparams`, and a `resultType=hits`
    count), and, when the user supplies a raw connection string, checks it against the
    grammar of its version and against the explicitly selected layer and dates. */
module RequestBuilder {
  import opened Common
  import opened Text

  /** SUPPORTED_OUTPUT_FORMATS: the only values of `fmt` that are sent as outputFormat. */
  const SupportedOutputFormats: seq<string> := ["GML2", "GML3", "JSON"]

  /** The two grammars; 1.0.0 is an alias of 1.1.0. */
  datatype Variant = WFS110 | WFS200

  /** The configuration tuple (url, key, svc, ver, fmt, cql). A value the configuration
      leaves unset is the empty string, except the key, whose absence matters on its own. */
  datatype Params = Params(url: string, key: Option<string>, svc: string, ver: string, fmt: string, cql: string)

  // ---------------------------------------------------------------------------------------
  // Query strings

  /** The two substitutions every GetFeature builder ends with: the first ## becomes ? and
      every later ## becomes &. */
  function Rewrite(raw: string): string
  {
    ReplaceAll(ReplaceFirst(raw, "##", "?"), "##", "&")
  }

  /** The substitutions turn a ##-separated parameter list into the query `base?p1&...`,
      provided nothing around the markers carries a '#' of its own. */
  lemma RewriteIsQuery(base: string, ps: seq<string>, tail: string)
    requires ps != [] && NoneContain(ps, '#') && '#' !in base && '#' !in tail
    ensures Rewrite(base + Joined("##", ps) + tail) == Query(base, ps) + tail
  {
    ReplaceFirstThenAll(base, ps, tail, "##", "?", "&");
  }

  // ---------------------------------------------------------------------------------------
  // Version dispatch and the API key

  /** getInstance's choice of builder from the configured version string. */
  function SelectVariant(version: string): (r: Result<Variant, Error>)
    ensures r == Success(WFS110) <==> version == "1.0.0" || version == "1.0" || version == "1.1.0"
    ensures r == Success(WFS200) <==> version == "2.0.0" || version == "2.0"
    ensures r.Failure? ==> r.error == UnknownDSVersion(version)
  {
    if version == "1.0.0" || version == "1.0" then Success(WFS110)
    else if version == "1.1.0" then Success(WFS110)
    else if version == "2.0.0" || version == "2.0" then Success(WFS200)
    else Failure(UnknownDSVersion(version))
  }

  /** `[a-f0-9]{32}` (case-insensitive) matches at `i`. */
  predicate HexRunAt(s: string, i: nat)
  {
    i + 32 <= |s| && forall k :: i <= k < i + 32 ==> IsHexDigit(s[k])
  }

  /** `/([a-f0-9]{32})/(v/x|wfs\?)` (case-insensitive) matches at `i`. */
  predicate KeyPathAt(s: string, i: nat)
  {
    i + 34 <= |s| && s[i] == '/' && HexRunAt(s, i + 1) && s[i + 33] == '/'
    && (IsAtNoCase(s, i + 34, "v/x") || IsAtNoCase(s, i + 34, "wfs?"))
  }

  /** `/key=[a-f0-9]{32}/` (case-insensitive) matches at `i`. */
  predicate KeyParamAt(s: string, i: nat)
  {
    i + 38 <= |s| && IsAtNoCase(s, i, "/key=") && HexRunAt(s, i + 5) && s[i + 37] == '/'
  }

  /** validateAPIKey: succeeds, with True, exactly when the key contains 32 consecutive hex
      digits anywhere (a longer string passes too); it never answers False. */
  function ValidateAPIKey(k: Option<string>): (r: Result<bool, Error>)
    ensures r.Success? <==> k.Some? && exists i :: 0 <= i <= |k.value| && HexRunAt(k.value, i)
    ensures r.Success? ==> r.value
    ensures k.Some? && r.Failure? ==> r.error == MalformedConnectionString(BadApiKey)
    ensures k.None? ==> r == Failure(TypeError)
  {
    match k
    case None => Failure(TypeError)
    case Some(s) => if Search(s, HexRunAt) then Success(true) else Failure(MalformedConnectionString(BadApiKey))
  }

  /** extractAPIKey: the hex group of the leftmost `/<key>/v/x` or `/<key>/wfs?`. */
  function ExtractAPIKey(cs: string, raiseErr: bool): (r: Result<Option<string>, Error>)
    ensures r.Failure? <==> raiseErr && !exists i :: 0 <= i <= |cs| && KeyPathAt(cs, i)
    ensures r.Failure? ==> r.error == MalformedConnectionString(KeyNotFound)
    ensures r == Success(None) <==> !raiseErr && !exists i :: 0 <= i <= |cs| && KeyPathAt(cs, i)
    ensures r.Success? && r.value.Some? ==>
      exists i :: 0 <= i <= |cs| && KeyPathAt(cs, i) && r.value.value == cs[i + 1..i + 33]
        && forall j :: 0 <= j < i ==> !KeyPathAt(cs, j)
  {
    match FindFrom(cs, 0, KeyPathAt)
    case Some(i) => Success(Some(cs[i + 1..i + 33]))
    case None => if raiseErr then Failure(MalformedConnectionString(KeyNotFound)) else Success(None)
  }

  /** A key taken out of a connection string always passes validateAPIKey. */
  lemma ExtractedKeyIsValid(cs: string, raiseErr: bool)
    requires ExtractAPIKey(cs, raiseErr).Success? && ExtractAPIKey(cs, raiseErr).value.Some?
    ensures |ExtractAPIKey(cs, raiseErr).value.value| == 32
    ensures ValidateAPIKey(ExtractAPIKey(cs, raiseErr).value) == Success(true)
  {
    var k := ExtractAPIKey(cs, raiseErr).value.value;
    var i :| 0 <= i <= |cs| && KeyPathAt(cs, i) && k == cs[i + 1..i + 33];
    assert HexRunAt(k, 0) by {
      forall j | 0 <= j < 32 ensures IsHexDigit(k[j]) {
        assert k[j] == cs[i + 1 + j];
      }
    }
  }

  /** The key __init__ validates: the configured one, or, when a connection string is given,
      the one extracted from it (None when there is none). */
  function InitialKey(key: Option<string>, cs: string): (r: Option<string>)
    ensures cs == "" ==> r == key
    ensures cs != "" ==> (r.None? <==> !exists i :: 0 <= i <= |cs| && KeyPathAt(cs, i))
  {
    if cs != "" then ExtractAPIKey(cs, false).value else key
  }

  // ---------------------------------------------------------------------------------------
  // Connection-string grammar

  /** `^http://`, case-insensitive. */
  predicate HttpOk(cs: string) { IsAtNoCase(cs, 0, "http://") }

  /** The service root each grammar expects. */
  function Host(v: Variant): string
  {
    match v
    case WFS110 => "wfs.data.linz.govt.nz"
    case WFS200 => "data-test.linz.govt.nz"
  }

  /** The service root of the grammar occurs somewhere, ignoring case. */
  function HostOk(v: Variant, cs: string): (found: bool)
    ensures found <==> ContainsNoCase(cs, Host(v))
  {
    var atHost := (t: string, i: nat) => IsAtNoCase(t, i, Host(v));
    assert forall i: nat :: atHost(cs, i) == IsAtNoCase(cs, i, Host(v));
    Search(cs, atHost)
  }

  /** The API key occurs where the grammar expects it: `/<key>/v/x` or `/<key>/wfs?` for
      1.1.0, `/key=<key>/` for 2.0.0. */
  function KeyOk(v: Variant, cs: string): (found: bool)
    ensures v == WFS110 ==> (found <==> exists i :: 0 <= i <= |cs| && KeyPathAt(cs, i))
    ensures v == WFS200 ==> (found <==> exists i :: 0 <= i <= |cs| && KeyParamAt(cs, i))
  {
    match v
    case WFS110 => Search(cs, KeyPathAt)
    case WFS200 => Search(cs, KeyParamAt)
  }

  /** The `wfs?` service marker occurs somewhere, ignoring case. */
  function WfsOk(cs: string): (found: bool)
    ensures found <==> ContainsNoCase(cs, "wfs?")
  {
    var atMarker := (t: string, i: nat) => IsAtNoCase(t, i, "wfs?");
    assert forall i: nat :: atMarker(cs, i) == IsAtNoCase(cs, i, "wfs?");
    Search(cs, atMarker)
  }

  /** validateConnStr of each variant: the checks run in a fixed order (scheme, service
      root, key, wfs? marker) and the first that fails decides the error; on success the
      string comes back unchanged with the layer getLayerNameFromURL finds in it. */
  function ConnStrCheck(v: Variant, cs: string, utils: Utilities): (r: Result<(string, Option<string>), Error>)
    ensures r.Success? <==> HttpOk(cs) && HostOk(v, cs) && KeyOk(v, cs) && WfsOk(cs)
    ensures !HttpOk(cs) ==> r == Failure(MalformedConnectionString(NoHttp))
    ensures HttpOk(cs) && !HostOk(v, cs) ==> r == Failure(MalformedConnectionString(WrongHost))
    ensures HttpOk(cs) && HostOk(v, cs) && !KeyOk(v, cs) ==> r == Failure(MalformedConnectionString(NoApiKey))
    ensures HttpOk(cs) && HostOk(v, cs) && KeyOk(v, cs) && !WfsOk(cs) ==> r == Failure(MalformedConnectionString(NoWfsMarker))
    ensures r.Success? ==> r.value == (cs, utils.getLayerNameFromURL(cs))
  {
    if !HttpOk(cs) then Failure(MalformedConnectionString(NoHttp))
    else if !HostOk(v, cs) then Failure(MalformedConnectionString(WrongHost))
    else if !KeyOk(v, cs) then Failure(MalformedConnectionString(NoApiKey))
    else if !WfsOk(cs) then Failure(MalformedConnectionString(NoWfsMarker))
    else Success((cs, utils.getLayerNameFromURL(cs)))
  }

  /** An address without '-', such as every 1.1.0 address on wfs.data.linz.govt.nz, fails
      the 2.0.0 check at the service root: the two grammars are not interchangeable. */
  lemma NoDashFailsV200(cs: string, utils: Utilities)
    requires '-' !in cs && HttpOk(cs)
    ensures ConnStrCheck(WFS200, cs, utils) == Failure(MalformedConnectionString(WrongHost))
  {
    assert Host(WFS200)[4] == '-';
    forall i | 0 <= i < |cs| ensures Lower(cs[i]) != '-' {
      assert cs[i] in cs;
    }
  }

  /** No '/' is followed by a 'k' of either case. */
  predicate NoSlashK(s: string)
  {
    forall i :: 0 <= i < |s| - 1 && s[i] == '/' ==> Lower(s[i + 1]) != 'k'
  }

  lemma SlashFree(q: string)
    requires '/' !in q
    ensures NoSlashK(q)
  {
    forall i | 0 <= i < |q| ensures q[i] != '/' {
      assert q[i] in q;
    }
  }

  lemma NoSlashKConcat(a: string, b: string)
    requires NoSlashK(a) && NoSlashK(b)
    requires a != [] && b != [] && a[|a| - 1] == '/' ==> Lower(b[0]) != 'k'
    ensures NoSlashK(a + b)
  {
    var s := a + b;
    forall i | 0 <= i < |s| - 1 && s[i] == '/' ensures Lower(s[i + 1]) != 'k' {
      if i + 1 < |a| {
        assert s[i] == a[i] && s[i + 1] == a[i + 1];
      } else if i >= |a| {
        assert s[i] == b[i - |a|] && s[i + 1] == b[i + 1 - |a|];
      } else {
        assert s[i] == a[|a| - 1] && s[i + 1] == b[0];
      }
    }
  }

  /** `/key=` cannot occur where no '/' is followed by a 'k'. */
  lemma NoSlashKNoKeyParam(s: string)
    requires NoSlashK(s)
    ensures forall i :: 0 <= i <= |s| ==> !KeyParamAt(s, i)
  {
    forall i | 0 <= i <= |s| ensures !KeyParamAt(s, i) {
      assert "/key="[0] == '/' && "/key="[1] == 'k';
      if i + 1 < |s| && s[i] == '/' {
        assert Lower(s[i + 1]) != 'k';
      }
    }
  }

  /** The address form the 2.0.0 builder documents for itself:
      `http://data-test.linz.govt.nz/services;key=<key>/<request>`. */
  function V200Address(key: string, request: string): string
  {
    "http://" + Host(WFS200) + "/services;key=" + key + "/" + request
  }

  /** No `/key=` occurs in an address of the documented 2.0.0 form. */
  lemma V200AddressHasNoKeyParam(key: string, request: string)
    requires '/' !in key && '/' !in request && (request != [] ==> Lower(request[0]) != 'k')
    ensures !KeyOk(WFS200, V200Address(key, request))
  {
    var a := "http://";
    assert NoSlashK(a) by {
      forall i | 0 <= i < |a| - 1 && a[i] == '/' ensures Lower(a[i + 1]) != 'k' {
        assert i == 5 || i == 6;
      }
    }
    SlashFree(Host(WFS200));
    var c := "/services;key=";
    assert NoSlashK(c) by {
      forall i | 0 <= i < |c| - 1 && c[i] == '/' ensures Lower(c[i + 1]) != 'k' {
        assert i == 0;
      }
    }
    SlashFree(key);
    SlashFree(request);
    NoSlashKConcat(a, Host(WFS200));
    NoSlashKConcat(a + Host(WFS200), c);
    NoSlashKConcat(a + Host(WFS200) + c, key);
    NoSlashKConcat(a + Host(WFS200) + c + key, "/");
    NoSlashKConcat(a + Host(WFS200) + c + key + "/", request);
    NoSlashKNoKeyParam(V200Address(key, request));
  }

  /** An address of the documented 2.0.0 form starts with http:// and names the 2.0.0
      service root. */
  lemma V200AddressHasHost(key: string, request: string)
    ensures HttpOk(V200Address(key, request)) && HostOk(WFS200, V200Address(key, request))
  {
    var x, h, r1 := "http://", Host(WFS200), "/services;key=";
    var rest := r1 + key + "/" + request;
    AppendAssoc(x + h, r1 + key + "/", request);
    AppendAssoc(x + h, r1 + key, "/");
    AppendAssoc(x + h, r1, key);
    assert V200Address(key, request) == x + h + rest;
    IsAtPiece(x, h, rest);
    IsAtIgnoringCase(V200Address(key, request), 7, h);
    AppendAssoc(x, h, rest);
    assert "" + x == x;
    IsAtPiece("", x, h + rest);
    IsAtIgnoringCase(V200Address(key, request), 0, x);
  }

  /** The 2.0.0 check demands `/key=`, so it rejects every address of its own documented
      form, whose key follows `;key=`. */
  lemma V200AddressRejected(key: string, request: string, utils: Utilities)
    requires '/' !in key && '/' !in request && (request != [] ==> Lower(request[0]) != 'k')
    ensures ConnStrCheck(WFS200, V200Address(key, request), utils) == Failure(MalformedConnectionString(NoApiKey))
  {
    V200AddressHasNoKeyParam(key, request);
    V200AddressHasHost(key, request);
  }

  /** A connection string that passes the 1.1.0 checks always carries the API key __init__
      extracts from it, and that key passes validateAPIKey. */
  lemma ValidV110KeyPasses(cs: string, utils: Utilities)
    requires ConnStrCheck(WFS110, cs, utils).Success?
    ensures InitialKey(None, cs).Some? && |InitialKey(None, cs).value| == 32
    ensures ValidateAPIKey(InitialKey(None, cs)) == Success(true)
  {
    ExtractedKeyIsValid(cs, false);
  }

  // ---------------------------------------------------------------------------------------
  // The builder object

  class RequestBuilder {
    const variant: Variant
    const url: string
    const key: string
    const svc: string
    const ver: string
    const fmt: string
    const cql: string
    /** The raw connection string; "" when the user gave none. */
    const connStr: string
    const utils: Utilities

    constructor (variant: Variant, p: Params, key: string, connStr: string, utils: Utilities)
      ensures this.variant == variant && this.key == key && this.connStr == connStr && this.utils == utils
      ensures url == p.url && svc == p.svc && ver == p.ver && fmt == p.fmt && cql == p.cql
    {
      this.variant := variant;
      this.url, this.key, this.svc, this.ver, this.fmt, this.cql := p.url, key, p.svc, p.ver, p.fmt, p.cql;
      this.connStr := connStr;
      this.utils := utils;
    }

    /** The service parameter; WFS when none is configured. */
    function SvcParams(): seq<string> { ["service=" + (if svc != "" then svc else "WFS")] }

    /** The version parameter, only when one is configured. */
    function VerParams(): seq<string> { if ver != "" then ["version=" + ver] else [] }

    /** The outputFormat parameter, only for a supported format. */
    function FmtParams(): seq<string> { if fmt in SupportedOutputFormats then ["outputFormat=" + fmt] else [] }

    /** The filter parameter, only when a filter is configured. */
    function CQLParams(): seq<string> { if cql != "" then ["cql_filter=" + utils.checkCQL(cql)] else [] }

    /** The GetFeature parameters before the filter, in the order the builders emit them:
        service, version, request, typeName, any view parameters and outputFormat. */
    function FeatureHead(typeName: string, view: seq<string>): seq<string>
    {
      SvcParams() + VerParams() + ["request=GetFeature", "typeName=" + typeName] + view + FmtParams()
    }

    /** Every GetFeature parameter, the filter last. */
    function FeatureParams(typeName: string, view: seq<string>): seq<string>
    {
      FeatureHead(typeName, view) + CQLParams()
    }

    /** No configured value carries a '#' of its own, so the ## markers are the only ones. */
    predicate HashFreeConfig()
    {
      '#' !in url && '#' !in key && '#' !in svc && '#' !in ver && (cql != "" ==> '#' !in utils.checkCQL(cql))
    }

    /** getCapabilities. The literal tails of the source are written out piece by piece. */
    function GetCapabilities(): string
    {
      match variant
      case WFS110 =>
        url + key + "/wfs" + "?" + "service=WFS" + "&" + "version=1.1.0" + "&" + "request=GetCapabilities"
      case WFS200 =>
        url + "services;key=" + key + "/wfs" + "?" + "service=" + svc + "&" + "request=GetCapabilities"
    }

    /** The capabilities request of each grammar as a query: 1.1.0 puts the key in the path
        and fixes service and version; 2.0.0 puts it in a `services;key=` segment and sends
        the configured service with no version. */
    lemma GetCapabilitiesIsQuery()
      ensures variant == WFS110 ==>
        GetCapabilities() == Query(url + key + "/wfs", ["service=WFS", "version=1.1.0", "request=GetCapabilities"])
      ensures variant == WFS200 ==>
        GetCapabilities() == Query(url + "services;key=" + key + "/wfs", ["service=" + svc, "request=GetCapabilities"])
    {
      var r1 := "request=GetCapabilities";
      if variant == WFS110 {
        var base, s1, v1 := url + key + "/wfs", "service=WFS", "version=1.1.0";
        QuerySingle(base, s1);
        QueryAppend(base, [s1], v1);
        assert [s1] + [v1] == [s1, v1];
        QueryAppend(base, [s1, v1], r1);
        assert [s1, v1] + [r1] == [s1, v1, r1];
      } else {
        var base, s1 := url + "services;key=" + key + "/wfs", "service=" + svc;
        QuerySingle(base, s1);
        QueryAppend(base, [s1], r1);
        assert [s1] + [r1] == [s1, r1];
        AppendAssoc(base + "?", "service=", svc);
      }
    }

    /** _buildCQLStr. */
    function BuildCQLStr(): string
    {
      if cql != "" then "&" + "cql_filter=" + utils.checkCQL(cql) else ""
    }

    /** The ##-marked service, version and format pieces of the raw request. */
    function SvcPart(): string { if svc != "" then "##service=" + svc else "##service=WFS" }

    function VerPart(): string { if ver != "" then "##version=" + ver else "" }

    function FmtPart(): string { if fmt in SupportedOutputFormats then "##outputFormat=" + fmt else "" }

    /** The concatenation the GetFeature builders hand to re.sub: the key and the path, then
        the ##-marked parameters and the filter. */
    function RawFeatureRequest(path: string, typ: string, inc: string): string
    {
      url + key + path + SvcPart() + VerPart() + "##request=GetFeature" + typ + inc + FmtPart() + BuildCQLStr()
    }

    /** A marked parameter: `"##" + name` followed by its value is the marker and then the
        parameter. */
    static lemma Marked(name: string, value: string)
      requires |name| > 0
      ensures ("##" + name) + value == "##" + (name + value)
    {
      AppendAssoc("##", name, value);
    }

    /** Each optional piece is its parameter list joined with ## markers. */
    lemma PartsJoined()
      ensures Joined("##", SvcParams()) == SvcPart()
      ensures Joined("##", VerParams()) == VerPart()
      ensures Joined("##", FmtParams()) == FmtPart()
    {
      SvcJoined();
      VerJoined();
      FmtJoined();
    }

    lemma SvcJoined()
      ensures Joined("##", SvcParams()) == SvcPart()
    {
      JoinedSingle("##", SvcParams()[0]);
      assert "##service=" == "##" + "service=";
      if svc != "" {
        Marked("service=", svc);
      } else {
        Marked("service=", "WFS");
        assert "##service=WFS" == "##service=" + "WFS";
      }
    }

    lemma VerJoined()
      ensures Joined("##", VerParams()) == VerPart()
    {
      if ver != "" {
        JoinedSingle("##", VerParams()[0]);
        assert "##version=" == "##" + "version=";
        Marked("version=", ver);
      }
    }

    lemma FmtJoined()
      ensures Joined("##", FmtParams()) == FmtPart()
    {
      if fmt in SupportedOutputFormats {
        JoinedSingle("##", FmtParams()[0]);
        assert "##outputFormat=" == "##" + "outputFormat=";
        Marked("outputFormat=", fmt);
      }
    }

    /** The request and typeName parameters joined with ## markers. */
    static lemma CoreJoined(typeName: string)
      ensures Joined("##", ["request=GetFeature", "typeName=" + typeName])
           == "##request=GetFeature" + ("##typeName=" + typeName)
    {
      JoinedPair("##", "request=GetFeature", "typeName=" + typeName);
      assert "##" + "request=GetFeature" == "##request=GetFeature";
      assert "##" + ("typeName=" + typeName) == "##typeName=" + typeName by {
        AppendAssoc("##", "typeName=", typeName);
        assert "##" + "typeName=" == "##typeName=";
      }
    }

    /** The parameter head joined with ## markers, piece by piece. */
    lemma FeatureHeadJoined(typeName: string, view: seq<string>)
      ensures Joined("##", FeatureHead(typeName, view))
           == SvcPart() + VerPart() + "##request=GetFeature" + ("##typeName=" + typeName) + Joined("##", view) + FmtPart()
    {
      var core := ["request=GetFeature", "typeName=" + typeName];
      var sv := SvcParams() + VerParams();
      JoinedAppend("##", sv + core + view, FmtParams());
      JoinedAppend("##", sv + core, view);
      JoinedAppend("##", sv, core);
      JoinedAppend("##", SvcParams(), VerParams());
      PartsJoined();
      CoreJoined(typeName);
      AppendAssoc(SvcPart() + VerPart(), "##request=GetFeature", "##typeName=" + typeName);
    }

    /** The ##-marked part of the raw request is the joined parameter head. */
    lemma RawFeatureRequestJoined(path: string, typeName: string, view: seq<string>)
      ensures RawFeatureRequest(path, "##typeName=" + typeName, Joined("##", view))
           == url + key + path + Joined("##", FeatureHead(typeName, view)) + BuildCQLStr()
    {
      FeatureHeadJoined(typeName, view);
      var x := url + key + path;
      var a, b, c, d := SvcPart(), VerPart(), "##request=GetFeature", "##typeName=" + typeName;
      var e, f := Joined("##", view), FmtPart();
      AppendAssoc(x, a + b + c + d + e, f);
      AppendAssoc(x, a + b + c + d, e);
      AppendAssoc(x, a + b + c, d);
      AppendAssoc(x, a + b, c);
      AppendAssoc(x, a, b);
    }

    /** None of the fixed parameter names, nor a configured value, holds a '#'. */
    lemma FeatureHeadHashFree(typeName: string, view: seq<string>)
      requires HashFreeConfig() && '#' !in typeName && NoneContain(view, '#')
      ensures NoneContain(FeatureHead(typeName, view), '#')
    {
      var ps := FeatureHead(typeName, view);
      FeatureLiteralsHashFree();
      forall k | 0 <= k < |ps| ensures '#' !in ps[k] {
      }
    }

    /** The fixed parameter names and the supported output formats hold no '#'. */
    static lemma FeatureLiteralsHashFree()
      ensures forall f :: f in SupportedOutputFormats ==> '#' !in f
      ensures '#' !in "service=" && '#' !in "WFS" && '#' !in "version=" && '#' !in "typeName="
      ensures '#' !in "outputFormat=" && '#' !in "request=GetFeature"
    {
    }

    /** The filter suffix carries no '#' of its own. */
    lemma FilterHashFree()
      requires HashFreeConfig()
      ensures '#' !in BuildCQLStr()
    {
      assert '#' !in "&" && '#' !in "cql_filter=";
    }

    /** The filter string _buildCQLStr appends is the filter parameter added to the query. */
    lemma FilterAppended(base: string, head: seq<string>)
      requires head != []
      ensures Query(base, head) + BuildCQLStr() == Query(base, head + CQLParams())
    {
      var q := Query(base, head);
      if cql != "" {
        var x := utils.checkCQL(cql);
        QueryAppend(base, head, "cql_filter=" + x);
        AppendAssoc(q, "&" + "cql_filter=", x);
        AppendAssoc(q, "&", "cql_filter=");
        AppendAssoc(q + "&", "cql_filter=", x);
      } else {
        assert head + [] == head;
        assert q + "" == q;
      }
    }

    /** What the GetFeature builders send is the query of FeatureParams: re.sub turns the
        first marker into '?' and the rest into '&', and the filter stays last. */
    lemma RawFeatureRequestIsQuery(path: string, typeName: string, view: seq<string>)
      requires HashFreeConfig() && '#' !in path && '#' !in typeName && NoneContain(view, '#')
      ensures Rewrite(RawFeatureRequest(path, "##typeName=" + typeName, Joined("##", view)))
           == Query(url + key + path, FeatureParams(typeName, view))
    {
      var base, head, tail := url + key + path, FeatureHead(typeName, view), BuildCQLStr();
      calc {
        Rewrite(RawFeatureRequest(path, "##typeName=" + typeName, Joined("##", view)));
        { RawFeatureRequestJoined(path, typeName, view); }
        Rewrite(base + Joined("##", head) + tail);
        { FeatureHeadHashFree(typeName, view); FilterHashFree(); RewriteIsQuery(base, head, tail); }
        Query(base, head) + tail;
        { FilterAppended(base, head); }
        Query(base, FeatureParams(typeName, view));
      }
    }

    /** sourceURI: 1.1.0 answers nothing for a missing or empty layer; a connection string
        is validated and returned as it is, unless it names another layer than a non-empty
        explicit one; otherwise the GetFeature request for the layer is built (for 2.0.0 a
        missing layer is a TypeError there). */
    function SourceURI(layername: Option<string>): (r: Result<Option<string>, Error>)
      ensures variant == WFS110 && (layername.None? || layername.value == "") ==> r == Success(None)
      ensures (variant == WFS200 || (layername.Some? && layername.value != "")) && connStr != "" ==>
        (r.Success? <==>
          && ConnStrCheck(variant, connStr, utils).Success?
          && (layername.Some? && layername.value != "" ==> utils.getLayerNameFromURL(connStr) == layername))
      ensures (variant == WFS200 || (layername.Some? && layername.value != "")) && connStr != "" && r.Success? ==>
        r.value == Some(connStr)
      ensures connStr != "" && r.Failure? ==>
        r.error == (if ConnStrCheck(variant, connStr, utils).Failure? then ConnStrCheck(variant, connStr, utils).error
                    else MalformedConnectionString(LayerMismatch))
      ensures variant == WFS200 && connStr == "" && layername.None? ==> r == Failure(TypeError)
    {
      if variant == WFS110 && (layername.None? || layername.value == "") then Success(None)
      else if connStr != "" then
        match ConnStrCheck(variant, connStr, utils)
        case Failure(e) => Failure(e)
        case Success((valid, urilayer)) =>
          if layername.Some? && layername.value != "" && urilayer != layername
          then Failure(MalformedConnectionString(LayerMismatch))
          else Success(Some(valid))
      else if layername.None? then Failure(TypeError)
      else Success(Some(Rewrite(RawFeatureRequest("/wfs", "##typeName=" + layername.value, ""))))
    }

    /** Without a connection string, sourceURI is the GetFeature query of FeatureParams. */
    lemma SourceURIIsQuery(layer: string)
      requires connStr == "" && (variant == WFS200 || layer != "")
      requires HashFreeConfig() && '#' !in layer
      ensures SourceURI(Some(layer)) == Success(Some(Query(url + key + "/wfs", FeatureParams(layer, []))))
    {
      assert Joined("##", []) == "";
      RawFeatureRequestIsQuery("/wfs", layer, []);
    }

    /** The date check of sourceURIIncremental: each explicit date, cut to its first ten
        characters and put after `from:` or `to:`, is searched for in the connection string
        as a pattern, so a `.` in it stands for any character but a newline. */
    static function DatesMatch(cs: string, fromdate: Option<string>, todate: Option<string>): (ok: bool)
      ensures ok <==>
        && (fromdate.Some? ==> ContainsDotPattern(cs, "from:" + Prefix(fromdate.value, 10)))
        && (todate.Some? ==> ContainsDotPattern(cs, "to:" + Prefix(todate.value, 10)))
    {
      var fromAt := (t: string, i: nat) => fromdate.Some? && DotPatternAt(t, i, "from:" + Prefix(fromdate.value, 10));
      var toAt := (t: string, i: nat) => todate.Some? && DotPatternAt(t, i, "to:" + Prefix(todate.value, 10));
      assert forall i: nat :: fromAt(cs, i) == (fromdate.Some? && DotPatternAt(cs, i, "from:" + Prefix(fromdate.value, 10)));
      assert forall i: nat :: toAt(cs, i) == (todate.Some? && DotPatternAt(cs, i, "to:" + Prefix(todate.value, 10)));
      !((fromdate.Some? && !Search(cs, fromAt)) || (todate.Some? && !Search(cs, toAt)))
    }

    /** A dotted date matches the dashed date written in the connection string. */
    static lemma DottedDateMatches()
      ensures DatesMatch("from:2020-01-01", Some("2020.01.01"), None)
    {
      var cs, p := "from:2020-01-01", "from:" + Prefix("2020.01.01", 10);
      assert p == "from:2020.01.01";
      assert DotPatternAt(cs, 0, p);
    }

    /** sourceURIIncremental: a connection string is validated and returned as it is when it
        names the explicit layer (if any) and contains `from:` and `to:` followed by the
        first ten characters of each explicit date; otherwise the "-changeset" GetFeature
        request with the GeoServer view parameters is built. */
    function SourceURIIncremental(layername: Option<string>, fromdate: Option<string>, todate: Option<string>)
      : (r: Result<string, Error>)
      ensures connStr != "" ==>
        (r.Success? <==>
          && ConnStrCheck(variant, connStr, utils).Success?
          && (layername.Some? ==> utils.getLayerNameFromURL(connStr) == layername)
          && DatesMatch(connStr, fromdate, todate))
      ensures connStr != "" && r.Success? ==> r.value == connStr
      ensures connStr != "" && r.Failure? && ConnStrCheck(variant, connStr, utils).Failure? ==>
        r.error == ConnStrCheck(variant, connStr, utils).error
      ensures connStr != "" && r.Failure? && ConnStrCheck(variant, connStr, utils).Success? ==>
        r.error == MalformedConnectionString(
          if layername.Some? && utils.getLayerNameFromURL(connStr) != layername then LayerMismatch else DateMismatch)
      ensures connStr == "" ==> (r == Failure(TypeError) <==> layername.None? || fromdate.None? || todate.None?)
    {
      if connStr != "" then
        match ConnStrCheck(variant, connStr, utils)
        case Failure(e) => Failure(e)
        case Success((valid, urilayer)) =>
          if layername.Some? && urilayer != layername then Failure(MalformedConnectionString(LayerMismatch))
          else if !DatesMatch(valid, fromdate, todate) then Failure(MalformedConnectionString(DateMismatch))
          else Success(valid)
      else if layername.None? || fromdate.None? || todate.None? then Failure(TypeError)
      else
        var l, f, t := layername.value, fromdate.value, todate.value;
        var vep := utils.splitLayerName(l) + "-changeset";
        Success(Rewrite(RawFeatureRequest(vep + "/wfs", "##typeName=" + l + "-changeset", "##viewparams=from:" + f + ";to:" + t)))
    }

    /** Without a connection string, the incremental request goes to the layer's
        "-changeset" endpoint, names the "-changeset" type and carries the two dates as one
        `viewparams=from:...;to:...` parameter after typeName. */
    lemma SourceURIIncrementalIsQuery(layer: string, fromdate: string, todate: string)
      requires connStr == "" && HashFreeConfig() && '#' !in layer && '#' !in utils.splitLayerName(layer)
      requires '#' !in fromdate && '#' !in todate
      ensures SourceURIIncremental(Some(layer), Some(fromdate), Some(todate))
        == Success(Query(url + key + utils.splitLayerName(layer) + "-changeset/wfs",
             FeatureParams(layer + "-changeset", ["viewparams=from:" + fromdate + ";to:" + todate])))
    {
      var vp := "viewparams=from:" + fromdate + ";to:" + todate;
      var split := utils.splitLayerName(layer);
      var path := split + "-changeset" + "/wfs";
      ViewParamsMarked(fromdate, todate);
      assert '#' !in vp && '#' !in path && '#' !in layer + "-changeset" by {
        ChangesetLiteralsHashFree();
      }
      assert NoneContain([vp], '#');
      RawFeatureRequestIsQuery(path, layer + "-changeset", [vp]);
      AppendAssoc("##typeName=", layer, "-changeset");
      AppendAssoc(split, "-changeset", "/wfs");
      assert "-changeset" + "/wfs" == "-changeset/wfs";
      AppendAssoc(url + key, split, "-changeset/wfs");
    }

    /** The fixed pieces of the incremental request hold no '#'. */
    static lemma ChangesetLiteralsHashFree()
      ensures '#' !in "viewparams=from:" && '#' !in ";to:" && '#' !in "-changeset" && '#' !in "/wfs"
    {
    }

    /** The ##-marked view parameter of the incremental request is the marker and the
        `viewparams` parameter. */
    static lemma ViewParamsMarked(fromdate: string, todate: string)
      ensures "##viewparams=from:" + fromdate + ";to:" + todate
           == Joined("##", ["viewparams=from:" + fromdate + ";to:" + todate])
    {
      var a := "viewparams=from:";
      JoinedSingle("##", a + fromdate + ";to:" + todate);
      assert "##viewparams=from:" == "##" + a;
      AppendAssoc("##", a, fromdate);
      AppendAssoc("##", a + fromdate, ";to:");
      AppendAssoc("##", a + fromdate + ";to:", todate);
    }

    /** sourceURIFeatureCount. The literal tails of the source are written out piece by
        piece. */
    function SourceURIFeatureCount(layername: Option<string>): (r: Result<string, Error>)
      ensures r.Failure? <==> layername.None?
      ensures r.Failure? ==> r.error == TypeError
    {
      match layername
      case None => Failure(TypeError)
      case Some(l) =>
        var typ := "&" + "typeName=" + l;
        Success(url + key + "/wfs" + "?" + "service=" + svc + "&" + "version=" + ver
          + "&" + "request=GetFeature" + "&" + "resultType=hits" + typ)
    }

    /** The count request never consults the connection string, the filter or the format: it
        is the query of service and version as configured (an empty value gives an empty
        parameter), request, resultType=hits and the type name. */
    lemma FeatureCountIsQuery(layer: string)
      ensures SourceURIFeatureCount(Some(layer)) == Success(Query(url + key + "/wfs",
        ["service=" + svc, "version=" + ver, "request=GetFeature", "resultType=hits", "typeName=" + layer]))
    {
      var base := url + key + "/wfs";
      var p0, p1, p2, p3, p4 := "service=" + svc, "version=" + ver, "request=GetFeature", "resultType=hits", "typeName=" + layer;
      QuerySingle(base, p0);
      AppendAssoc(base + "?", "service=", svc);
      QueryAppend(base, [p0], p1);
      AppendAssoc(Query(base, [p0]) + "&", "version=", ver);
      assert [p0] + [p1] == [p0, p1];
      QueryAppend(base, [p0, p1], p2);
      assert [p0, p1] + [p2] == [p0, p1, p2];
      QueryAppend(base, [p0, p1, p2], p3);
      assert [p0, p1, p2] + [p3] == [p0, p1, p2, p3];
      QueryAppend(base, [p0, p1, p2, p3], p4);
      assert [p0, p1, p2, p3] + [p4] == [p0, p1, p2, p3, p4];
      var q := Query(base, [p0, p1, p2, p3]);
      AppendAssoc(q, "&" + "typeName=", layer);
      AppendAssoc(q, "&", "typeName=");
      AppendAssoc(q + "&", "typeName=", layer);
    }

    /** With service and version set and no filter or supported format, the count request
        asks for what sourceURI asks for plus resultType=hits after the request parameter. */
    lemma FeatureCountMatchesSourceURI(layer: string)
      requires connStr == "" && layer != "" && svc != "" && ver != "" && cql == ""
      requires fmt !in SupportedOutputFormats && HashFreeConfig() && '#' !in layer
      ensures SourceURI(Some(layer)).Success? && SourceURI(Some(layer)).value.Some?
      ensures var ps := FeatureParams(layer, []);
        SourceURI(Some(layer)).value.value == Query(url + key + "/wfs", ps)
        && SourceURIFeatureCount(Some(layer)).value == Query(url + key + "/wfs", ps[..3] + ["resultType=hits"] + ps[3..])
    {
      SourceURIIsQuery(layer);
      FeatureCountIsQuery(layer);
      var p0, p1, p2, p3 := "service=" + svc, "version=" + ver, "request=GetFeature", "typeName=" + layer;
      var ps := FeatureParams(layer, []);
      PlainFeatureParams(layer);
      assert ps[..3] + ["resultType=hits"] + ps[3..] == [p0, p1, p2, "resultType=hits", p3];
    }

    /** With service and version set and no filter or supported format, sourceURI sends
        exactly the service, version, request and typeName parameters. */
    lemma PlainFeatureParams(layer: string)
      requires svc != "" && ver != "" && cql == "" && fmt !in SupportedOutputFormats
      ensures FeatureParams(layer, []) == ["service=" + svc, "version=" + ver, "request=GetFeature", "typeName=" + layer]
    {
      var p0, p1, p2, p3 := "service=" + svc, "version=" + ver, "request=GetFeature", "typeName=" + layer;
      assert FeatureParams(layer, []) == [p0] + [p1] + [p2, p3] + [] + [] + [];
    }
  }

  /** getInstance followed by __init__: picks the variant from the version, takes the key
      from the connection string when one is given, and refuses a key validateAPIKey
      rejects. */
  method GetInstance(p: Params, cs: string, utils: Utilities) returns (r: Result<RequestBuilder, Error>)
    ensures SelectVariant(p.ver).Failure? ==> r == Failure(UnknownDSVersion(p.ver))
    ensures SelectVariant(p.ver).Success? && ValidateAPIKey(InitialKey(p.key, cs)).Failure? ==>
      r == Failure(ValidateAPIKey(InitialKey(p.key, cs)).error)
    ensures r.Success? ==> SelectVariant(p.ver).Success? && ValidateAPIKey(InitialKey(p.key, cs)).Success?
    ensures r.Success? ==>
      && fresh(r.value) && r.value.variant == SelectVariant(p.ver).value
      && Some(r.value.key) == InitialKey(p.key, cs) && r.value.connStr == cs && r.value.utils == utils
      && r.value.url == p.url && r.value.svc == p.svc && r.value.ver == p.ver
      && r.value.fmt == p.fmt && r.value.cql == p.cql
  {
    var variant := SelectVariant(p.ver);
    if variant.Failure? {
      return Failure(variant.error);
    }
    var key := InitialKey(p.key, cs);
    var ok := ValidateAPIKey(key);
    if ok.Failure? {
      return Failure(ok.error);
    }
    var b := new RequestBuilder(variant.value, p, key.value, cs, utils);
    return Success(b);
  }
}
