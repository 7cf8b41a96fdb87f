/** The older LDS source datastore of LDSIncremental: its URI builders, which hand back a
    user-supplied connection string untouched and otherwise build the request with
    `outputFormat` always present and the raw filter appended last, and the extraction of
    `v:x<digits>` layer identifiers from a GetCapabilities document. */
module LDSDataStore {
  import opened Common
  import opened Text

  // ---------------------------------------------------------------------------------------
  // Layer identifiers in a capabilities document

  /** A layer identifier of the form `v:x` followed by one or more digits. */
  predicate IsLayerId(n: string)
  {
    |n| > 3 && n[..3] == "v:x" && forall k :: 3 <= k < |n| ==> IsDigit(n[k])
  }

  /** The number of digits `t` starts with: how far the greedy `\d+` reaches. */
  function DigitRun(t: string): (n: nat)
    ensures n <= |t| && forall k :: 0 <= k < n ==> IsDigit(t[k])
    ensures n < |t| ==> !IsDigit(t[n])
  {
    if t != [] && IsDigit(t[0]) then 1 + DigitRun(t[1..]) else 0
  }

  /** `<Name>(v:x\d+)<\/Name>` matches at the start of `s`. Since '<' is not a digit, the
      only way the pattern can match is with the longest run of digits. */
  predicate NameAt(s: string)
  {
    |s| >= 9 && s[..9] == "<Name>v:x" && DigitRun(s[9..]) > 0 && IsAt(s, 9 + DigitRun(s[9..]), "</Name>")
  }

  /** re.findall of `<Name>(v:x\d+)<\/Name>`: every captured identifier, left to right,
      resuming after each match. */
  function FindAll(s: string): (ids: seq<string>)
    ensures forall k :: 0 <= k < |ids| ==> IsLayerId(ids[k])
    decreases |s|
  {
    if s == [] then []
    else if NameAt(s) then
      var end := 9 + DigitRun(s[9..]);
      assert IsLayerId(s[6..end]) by {
        assert s[6..end][..3] == s[6..9] == s[..9][6..] == "v:x";
        forall k | 3 <= k < end - 6 ensures IsDigit(s[6..end][k]) {
          assert s[6..end][k] == s[9..][k - 3];
        }
      }
      [s[6..end]] + FindAll(s[end + 7..])
    else FindAll(s[1..])
  }

  /** The way a capabilities document lists a layer. */
  function NameElement(n: string): string
  {
    "<Name>" + n + "</Name>"
  }

  lemma {:induction false} DigitRunOf(d: string, t: string)
    requires forall k :: 0 <= k < |d| ==> IsDigit(d[k])
    requires t == [] || !IsDigit(t[0])
    ensures DigitRun(d + t) == |d|
    decreases |d|
  {
    if d != [] {
      assert (d + t)[0] == d[0];
      assert (d + t)[1..] == d[1..] + t;
      DigitRunOf(d[1..], t);
    } else {
      assert d + t == t;
    }
  }

  /** The extractor finds a listed identifier at the front and carries on after it. */
  lemma FindAllElement(n: string, rest: string)
    requires IsLayerId(n)
    ensures FindAll(NameElement(n) + rest) == [n] + FindAll(rest)
  {
    var s := NameElement(n) + rest;
    var d := n[3..];
    var close := "</Name>";
    assert n == "v:x" + d;
    assert s == "<Name>" + "v:x" + d + close + rest;
    assert "<Name>" + "v:x" == "<Name>v:x";
    assert s[..9] == "<Name>v:x";
    assert s[9..] == d + (close + rest);
    DigitRunOf(d, close + rest);
    assert IsAt(s, 9 + |d|, close) by {
      assert s[9 + |d|..9 + |d| + 7] == close;
    }
    assert s[6..9 + |d|] == n;
    assert s[9 + |d| + 7..] == rest;
  }

  /** Text in which no match starts is skipped: the finds are those of what follows it. */
  lemma {:induction false} FindAllSkips(p: string, x: string)
    requires forall i :: 0 <= i < |p| ==> !NameAt((p + x)[i..])
    ensures FindAll(p + x) == FindAll(x)
    decreases |p|
  {
    if p == [] {
      assert p + x == x;
    } else {
      var s, s' := p + x, p[1..] + x;
      assert !NameAt(s[0..]) && s[0..] == s;
      assert s[1..] == s';
      forall i | 0 <= i < |p[1..]| ensures !NameAt(s'[i..]) {
        assert s'[i..] == s[i + 1..];
      }
      FindAllSkips(p[1..], x);
    }
  }

  /** Wherever a `<Name>` element of a layer id stands, the extractor finds it, provided no
      match starts earlier: its id comes first, followed by the finds after the element. */
  lemma FindAllFirstElement(p: string, n: string, rest: string)
    requires IsLayerId(n)
    requires forall i :: 0 <= i < |p| ==> !NameAt((p + NameElement(n) + rest)[i..])
    ensures FindAll(p + NameElement(n) + rest) == [n] + FindAll(rest)
  {
    var x := NameElement(n) + rest;
    assert p + NameElement(n) + rest == p + x;
    FindAllSkips(p, x);
    FindAllElement(n, rest);
  }

  /** A document that lists the given layers, one element after another. */
  function Listing(names: seq<string>): string
  {
    if names == [] then "" else NameElement(names[0]) + Listing(names[1..])
  }

  /** Extracting from a listing gives back exactly the listed identifiers, in order and with
      duplicates. */
  lemma {:induction false} FindAllListing(names: seq<string>)
    requires forall k :: 0 <= k < |names| ==> IsLayerId(names[k])
    ensures FindAll(Listing(names)) == names
    decreases |names|
  {
    if names != [] {
      FindAllElement(names[0], Listing(names[1..]));
      FindAllListing(names[1..]);
    }
  }

  /** What fetchLayerNames accumulates over the lines of the document: each line's matches,
      line by line. */
  function NamesIn(lines: seq<string>): (ids: seq<string>)
    ensures forall k :: 0 <= k < |ids| ==> IsLayerId(ids[k])
  {
    if lines == [] then [] else NamesIn(lines[..|lines| - 1]) + FindAll(lines[|lines| - 1])
  }

  /** The extraction loop of fetchLayerNames over the lines urlopen delivers. */
  method FetchLayerNames(lines: seq<string>) returns (res: seq<string>)
    ensures res == NamesIn(lines)
    ensures forall k :: 0 <= k < |res| ==> IsLayerId(res[k])
  {
    res := [];
    var i := 0;
    while i < |lines|
      invariant 0 <= i <= |lines|
      invariant res == NamesIn(lines[..i])
    {
      assert lines[..i + 1][..i] == lines[..i];
      res := res + FindAll(lines[i]);
      i := i + 1;
    }
    assert lines[..|lines|] == lines;
  }

  // ---------------------------------------------------------------------------------------
  // The source datastore

  /** The configuration a WFS datastore is built with. */
  datatype WfsConfig = WfsConfig(url: string, key: string, svc: string, ver: string, fmt: string)

  class LdsSource {
    /** The connection string the datastore was created with, if any. */
    const connStr: Option<string>
    const url: string
    const key: string
    const svc: string
    const ver: string
    const fmt: string
    const utils: Utilities
    /** The filter setFilter stores and getFilter answers. */
    var filter: Option<string>
    /** Set by setIncremental. */
    var incremental: bool
    /** The data source the last read readLog. */
    var ds: Option<string>
    /** Every data source read has readLog, oldest first. */
    var readLog: seq<string>

    constructor (connStr: Option<string>, c: WfsConfig, filter: Option<string>, utils: Utilities)
      ensures this.connStr == connStr && this.utils == utils && this.filter == filter
      ensures url == c.url && key == c.key && svc == c.svc && ver == c.ver && fmt == c.fmt
      ensures !incremental && ds == None && readLog == []
    {
      this.connStr := connStr;
      this.url, this.key, this.svc, this.ver, this.fmt := c.url, c.key, c.svc, c.ver, c.fmt;
      this.utils := utils;
      this.filter := filter;
      this.incremental := false;
      this.ds := None;
      this.readLog := [];
    }

    /** setFilter. */
    method SetFilter(f: Option<string>)
      modifies this
      ensures filter == f && incremental == old(incremental) && ds == old(ds) && readLog == old(readLog)
    {
      filter := f;
    }

    /** setIncremental. */
    method SetIncremental()
      modifies this
      ensures incremental && filter == old(filter) && ds == old(ds) && readLog == old(readLog)
    {
      incremental := true;
    }

    /** read: opens the data source named by `dsn` through the driver. */
    method Read(dsn: string)
      modifies this
      ensures ds == Some(dsn) && readLog == old(readLog) + [dsn]
      ensures filter == old(filter) && incremental == old(incremental)
    {
      ds := Some(dsn);
      readLog := readLog + [dsn];
    }

    /** getCapabilities: the connection string when there is one. The literal tails of the
        source are written out piece by piece. */
    function GetCapabilities(): string
    {
      if connStr.Some? then connStr.value
      else url + key + "/wfs" + "?" + "service=WFS" + "&" + "version=" + ver + "&" + "request=GetCapabilities"
    }

    /** Without a connection string the capabilities request is the query of service WFS,
        the configured version and request=GetCapabilities. */
    lemma GetCapabilitiesIsQuery()
      ensures connStr.Some? ==> GetCapabilities() == connStr.value
      ensures connStr.None? ==>
        GetCapabilities() == Query(url + key + "/wfs", ["service=WFS", "version=" + ver, "request=GetCapabilities"])
    {
      var base := url + key + "/wfs";
      QuerySingle(base, "service=WFS");
      QueryParam(base, ["service=WFS"], "version=", ver);
      assert ["service=WFS"] + ["version=" + ver] == ["service=WFS", "version=" + ver];
      QueryAppend(base, ["service=WFS", "version=" + ver], "request=GetCapabilities");
      assert ["service=WFS", "version=" + ver] + ["request=GetCapabilities"]
        == ["service=WFS", "version=" + ver, "request=GetCapabilities"];
    }

    /** _buildCQLStr: the checked filter with no parameter name or separator of its own, or
        nothing without a filter. `filter` is what getFilter answers. */
    function BuildCQLStr(filter: Option<string>): (r: string)
      ensures filter.None? ==> r == ""
      ensures filter.Some? ==> r == utils.checkCQL(filter.value)
    {
      if filter.Some? then utils.checkCQL(filter.value) else ""
    }

    /** The parameters of the older GetFeature requests, in the order they are emitted:
        service and version as configured, request, typeName, any view parameters and an
        outputFormat that is always present. */
    function FeatureParams(typeName: string, view: seq<string>): seq<string>
    {
      ["service=" + svc, "version=" + ver, "request=GetFeature", "typeName=" + typeName] + view + ["outputFormat=" + fmt]
    }

    /** The query text up to typeName, shared by the three GetFeature builders. */
    function TypedRequest(path: string, typeName: string): string
    {
      url + key + path + "?" + "service=" + svc + "&" + "version=" + ver + "&" + "request=GetFeature"
        + "&" + "typeName=" + typeName
    }

    /** sourceURI: the connection string when there is one; otherwise the GetFeature request
        for the layer, with the filter appended last. */
    function SourceURI(filter: Option<string>, layername: Option<string>): (r: Result<string, Error>)
      ensures connStr.Some? ==> r == Success(connStr.value)
      ensures connStr.None? ==> (r.Failure? <==> layername.None?) && (r.Failure? ==> r.error == TypeError)
    {
      if connStr.Some? then Success(connStr.value)
      else if layername.None? then Failure(TypeError)
      else Success(TypedRequest("/wfs", layername.value) + "&" + "outputFormat=" + fmt + BuildCQLStr(filter))
    }

    /** The endpoint path of a layer's changeset view. */
    function ChangesetPath(l: string): string
    {
      utils.splitLayerName(l) + "-changeset" + "/wfs"
    }

    /** sourceURI_incr: the incremental address form without dates. */
    function SourceURIIncr(filter: Option<string>, layername: Option<string>): (r: Result<string, Error>)
      ensures connStr.Some? ==> r == Success(connStr.value)
      ensures connStr.None? ==> (r.Failure? <==> layername.None?) && (r.Failure? ==> r.error == TypeError)
    {
      if connStr.Some? then Success(connStr.value)
      else if layername.None? then Failure(TypeError)
      else
        var l := layername.value;
        Success(TypedRequest(ChangesetPath(l), l + "-changeset") + "&" + "outputFormat=" + fmt + BuildCQLStr(filter))
    }

    /** sourceURI_incrd: the incremental request with the dates as GeoServer view
        parameters. */
    function SourceURIIncrd(filter: Option<string>, layername: Option<string>, fromdate: Option<string>,
                            todate: Option<string>): (r: Result<string, Error>)
      ensures connStr.Some? ==> r == Success(connStr.value)
      ensures connStr.None? ==>
        (r.Failure? <==> layername.None? || fromdate.None? || todate.None?) && (r.Failure? ==> r.error == TypeError)
    {
      if connStr.Some? then Success(connStr.value)
      else if layername.None? || fromdate.None? || todate.None? then Failure(TypeError)
      else
        var l, f, t := layername.value, fromdate.value, todate.value;
        Success(TypedRequest(ChangesetPath(l), l + "-changeset") + "&" + "viewparams=from:" + f + ";to:" + t
          + "&" + "outputFormat=" + fmt + BuildCQLStr(filter))
    }

    /** The request text up to typeName is the query of the first four parameters. */
    lemma TypedRequestIsQuery(path: string, typeName: string)
      ensures TypedRequest(path, typeName)
        == Query(url + key + path, ["service=" + svc, "version=" + ver, "request=GetFeature", "typeName=" + typeName])
    {
      var base := url + key + path;
      var p0, p1, p2, p3 := "service=" + svc, "version=" + ver, "request=GetFeature", "typeName=" + typeName;
      QuerySingle(base, p0);
      AppendAssoc(base + "?", "service=", svc);
      QueryParam(base, [p0], "version=", ver);
      assert [p0] + [p1] == [p0, p1];
      QueryAppend(base, [p0, p1], p2);
      assert [p0, p1] + [p2] == [p0, p1, p2];
      QueryParam(base, [p0, p1, p2], "typeName=", typeName);
      assert [p0, p1, p2] + [p3] == [p0, p1, p2, p3];
    }

    /** Without a connection string, sourceURI is the query of FeatureParams with the filter
        text after it. */
    lemma SourceURIIsQuery(filter: Option<string>, layer: string)
      requires connStr.None?
      ensures SourceURI(filter, Some(layer))
        == Success(Query(url + key + "/wfs", FeatureParams(layer, [])) + BuildCQLStr(filter))
    {
      var head := ["service=" + svc, "version=" + ver, "request=GetFeature", "typeName=" + layer];
      TypedRequestIsQuery("/wfs", layer);
      QueryParam(url + key + "/wfs", head, "outputFormat=", fmt);
      assert head + [] + ["outputFormat=" + fmt] == head + ["outputFormat=" + fmt];
    }

    /** Without a connection string, sourceURI_incr asks the layer's "-changeset" endpoint
        for the "-changeset" type, with the filter text after the query. */
    lemma SourceURIIncrIsQuery(filter: Option<string>, layer: string)
      requires connStr.None?
      ensures SourceURIIncr(filter, Some(layer))
        == Success(Query(url + key + ChangesetPath(layer), FeatureParams(layer + "-changeset", [])) + BuildCQLStr(filter))
    {
      var l := layer + "-changeset";
      var head := ["service=" + svc, "version=" + ver, "request=GetFeature", "typeName=" + l];
      TypedRequestIsQuery(ChangesetPath(layer), l);
      QueryParam(url + key + ChangesetPath(layer), head, "outputFormat=", fmt);
      assert head + [] + ["outputFormat=" + fmt] == head + ["outputFormat=" + fmt];
    }

    /** sourceURI_incrd is the same request as sourceURI_incr with the dates as one view
        parameter between typeName and outputFormat. */
    lemma SourceURIIncrdIsQuery(filter: Option<string>, layer: string, fromdate: string, todate: string)
      requires connStr.None?
      ensures SourceURIIncrd(filter, Some(layer), Some(fromdate), Some(todate))
        == Success(Query(url + key + ChangesetPath(layer),
                         FeatureParams(layer + "-changeset", ["viewparams=from:" + fromdate + ";to:" + todate]))
                   + BuildCQLStr(filter))
    {
      var base := url + key + ChangesetPath(layer);
      var l := layer + "-changeset";
      var head := ["service=" + svc, "version=" + ver, "request=GetFeature", "typeName=" + l];
      var vp := "viewparams=from:" + fromdate + ";to:" + todate;
      TypedRequestIsQuery(ChangesetPath(layer), l);
      var q := Query(base, head);
      AppendAssoc(q + "&", "viewparams=from:", fromdate);
      AppendAssoc(q + "&", "viewparams=from:" + fromdate, ";to:");
      QueryParam(base, head, "viewparams=from:" + fromdate + ";to:", todate);
      QueryParam(base, head + [vp], "outputFormat=", fmt);
    }
  }
}
