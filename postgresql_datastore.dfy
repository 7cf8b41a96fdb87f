/** The PostgreSQL datastore's connection strings: the structural checks a user-supplied
    `PG:` string must pass, the removal of quotes around the active schema, and the string
    built from the configured parameters when no connection string is given. */
module PostgreSQLDataStore {
  import opened Common
  import opened Text

  // ---------------------------------------------------------------------------------------
  // The checks of validateConnStr

  /** A quoted value: `p` (ignoring case) at `i`, then one or more characters satisfying
      `ok`, then a quote. Backtracking lets the closing quote be any quote reached while
      every character before it satisfies `ok`. */
  predicate QuotedAt(s: string, i: nat, p: string, ok: char -> bool)
  {
    IsAtNoCase(s, i, p)
    && exists j :: i + |p| < j < |s| && s[j] == '\'' && forall k :: i + |p| <= k < j ==> ok(s[k])
  }

  predicate NotSpace(c: char) { !IsSpace(c) }

  /** `dbname='\S+'`, case-insensitive, at `i`. */
  predicate DbNameAt(s: string, i: nat) { QuotedAt(s, i, "dbname='", NotSpace) }

  /** `host='\S+'`, case-insensitive, at `i`. */
  predicate HostAt(s: string, i: nat) { QuotedAt(s, i, "host='", NotSpace) }

  /** `port='\d+'`, case-insensitive, at `i`. */
  predicate PortAt(s: string, i: nat) { QuotedAt(s, i, "port='", IsDigit) }

  /** A value followed by its closing quote matches wherever it is written. */
  lemma QuotedAtPiece(a: string, p: string, v: string, b: string, ok: char -> bool)
    requires v != [] && forall k :: 0 <= k < |v| ==> ok(v[k])
    ensures QuotedAt(a + p + v + "'" + b, |a|, p, ok)
  {
    var s := a + p + v + "'" + b;
    assert s == a + p + (v + "'" + b);
    IsAtPiece(a, p, v + "'" + b);
    IsAtIgnoringCase(s, |a|, p);
    var j := |a| + |p| + |v|;
    assert s[j] == '\'';
    forall k | |a| + |p| <= k < j ensures ok(s[k]) {
      assert s[k] == v[k - |a| - |p|];
    }
  }

  /** A match inside `b` is still a match once `b` is preceded by `a`. */
  lemma QuotedAtShift(a: string, b: string, i: nat, p: string, ok: char -> bool)
    requires QuotedAt(b, i, p, ok)
    ensures QuotedAt(a + b, |a| + i, p, ok)
  {
    var s := a + b;
    forall k | 0 <= k < |p| ensures Lower(s[|a| + i + k]) == Lower(p[k]) {
      assert s[|a| + i + k] == b[i + k];
    }
    var j :| i + |p| < j < |b| && b[j] == '\'' && forall k :: i + |p| <= k < j ==> ok(b[k]);
    assert s[|a| + j] == '\'';
    forall k | |a| + i + |p| <= k < |a| + j ensures ok(s[k]) {
      assert s[k] == b[k - |a|];
    }
  }

  // ---------------------------------------------------------------------------------------
  // The active_schema rewrite

  /** What the rewrite puts in place of a match, before the group. */
  const SchemaName: string := "active_schema="

  /** The start of a match. */
  const SchemaKey: string := SchemaName + "'"

  /** The last quote in `s` after `lo` that every character from `lo` to it reaches without
      crossing white space: where the greedy `\S+'` ends. */
  function LastQuote(s: string, lo: nat, hi: nat): (r: Option<nat>)
    requires lo <= hi <= |s|
    ensures r.Some? ==> lo < r.value < hi && s[r.value] == '\''
    ensures r.None? ==> forall j :: lo < j < hi ==> s[j] != '\''
    decreases hi
  {
    if hi <= lo + 1 then None
    else if s[hi - 1] == '\'' then Some(hi - 1)
    else LastQuote(s, lo, hi - 1)
  }

  /** The number of non-space characters `s` starts with. */
  function NonSpaceRun(s: string): (n: nat)
    ensures n <= |s| && forall k :: 0 <= k < n ==> !IsSpace(s[k])
    ensures n < |s| ==> IsSpace(s[n])
  {
    if s != [] && !IsSpace(s[0]) then 1 + NonSpaceRun(s[1..]) else 0
  }

  /** Where `active_schema='(\S+)'` matching at the start of `s` puts its closing quote. */
  function SchemaMatch(s: string): (r: Option<nat>)
    ensures r.Some? ==> 15 < r.value < |s| && s[r.value] == '\'' && IsAt(s, 0, SchemaKey)
  {
    if IsAt(s, 0, SchemaKey) then LastQuote(s, 15, 15 + NonSpaceRun(s[15..])) else None
  }

  /** `re.sub(r"active_schema='(\S+)'", r"active_schema=\1", s)`: each match, left to right
      and without overlap, loses the quotes around its group. */
  function SubSchema(s: string): (r: string)
    ensures |r| <= |s|
    decreases |s|
  {
    if s == [] then []
    else match SchemaMatch(s)
      case Some(j) => SchemaName + s[15..j] + SubSchema(s[j + 1..])
      case None => [s[0]] + SubSchema(s[1..])
  }

  /** A string with every quote character removed. */
  function Unquoted(s: string): (r: string)
    ensures forall k :: 0 <= k < |r| ==> r[k] != '\''
  {
    if s == [] then [] else (if s[0] == '\'' then [] else [s[0]]) + Unquoted(s[1..])
  }

  lemma {:induction false} UnquotedAppend(a: string, b: string)
    ensures Unquoted(a + b) == Unquoted(a) + Unquoted(b)
    decreases |a|
  {
    if a == [] {
      assert a + b == b;
    } else {
      assert (a + b)[0] == a[0] && (a + b)[1..] == a[1..] + b;
      UnquotedAppend(a[1..], b);
    }
  }

  lemma UnquotedThree(n: string, g: string, done: string)
    ensures Unquoted(n + g + done) == Unquoted(n) + Unquoted(g) + Unquoted(done)
  {
    UnquotedAppend(n + g, done);
    UnquotedAppend(n, g);
  }

  /** Dropping the quotes around a group leaves the unquoted text as it was. */
  lemma UnquoteAround(n: string, g: string, rest: string)
    ensures Unquoted(n + "'" + (g + ("'" + rest))) == Unquoted(n) + Unquoted(g) + Unquoted(rest)
  {
    var x := "'" + rest;
    var y := g + x;
    assert Unquoted(y) == Unquoted(g) + Unquoted(rest) by {
      UnquotedAppend(g, x);
      QuoteDropped(rest);
    }
    assert Unquoted(n + "'") == Unquoted(n) by {
      UnquotedAppend(n, "'");
      QuoteDropped([]);
      assert "'" + [] == "'";
    }
    UnquotedAppend(n + "'", y);
    AppendAssoc(Unquoted(n), Unquoted(g), Unquoted(rest));
  }

  lemma QuoteDropped(rest: string)
    ensures Unquoted("'" + rest) == Unquoted(rest)
  {
    var x := "'" + rest;
    assert x[0] == '\'' && x[1..] == rest;
  }

  /** Removing the quotes of a string that has quotes at `k` and `j` removes them around the
      three pieces they separate. */
  lemma UnquoteSplit(s: string, k: nat, j: nat)
    requires k < j < |s| && s[k] == '\'' && s[j] == '\''
    ensures Unquoted(s) == Unquoted(s[..k]) + Unquoted(s[k + 1..j]) + Unquoted(s[j + 1..])
  {
    var n, g, rest := s[..k], s[k + 1..j], s[j + 1..];
    assert s[j..] == "'" + rest;
    assert s[k + 1..] == g + s[j..];
    assert s[k..] == "'" + s[k + 1..];
    assert s == n + s[k..];
    AppendAssoc(n, "'", g + ("'" + rest));
    UnquoteAround(n, g, rest);
  }

  /** One rewritten match keeps the unquoted text, given that the rest of the string does. */
  lemma DropsQuotesAtMatch(s: string, j: nat)
    requires s != [] && SchemaMatch(s) == Some(j)
    requires Unquoted(SubSchema(s[j + 1..])) == Unquoted(s[j + 1..])
    ensures Unquoted(SubSchema(s)) == Unquoted(s)
  {
    var g, rest := s[15..j], s[j + 1..];
    assert SubSchema(s) == SchemaName + g + SubSchema(rest);
    assert s[..14] == SchemaName && s[14] == '\'' by {
      assert s[..15] == SchemaKey;
      assert s[..14] == s[..15][..14];
      assert s[14] == s[..15][14];
    }
    UnquoteSplit(s, 14, j);
    UnquotedThree(SchemaName, g, SubSchema(rest));
  }

  /** A character outside a match is copied, which keeps the unquoted text, given that the
      rest of the string does. */
  lemma DropsQuotesElsewhere(s: string)
    requires s != [] && SchemaMatch(s) == None
    requires Unquoted(SubSchema(s[1..])) == Unquoted(s[1..])
    ensures Unquoted(SubSchema(s)) == Unquoted(s)
  {
    SubSchemaNoMatch(s);
    var h, t := [s[0]], s[1..];
    assert s == h + t;
    UnquotedAppend(h, t);
    UnquotedAppend(h, SubSchema(t));
  }

  /** Where no match starts, the first character is copied as it is. */
  lemma SubSchemaNoMatch(s: string)
    requires s != [] && SchemaMatch(s) == None
    ensures SubSchema(s) == [s[0]] + SubSchema(s[1..])
  {
  }

  /** The rewrite only deletes quote characters: removing every quote from its result and
      from its input gives the same string. */
  lemma {:induction false} SubSchemaOnlyDropsQuotes(s: string)
    ensures Unquoted(SubSchema(s)) == Unquoted(s)
    decreases |s|
  {
    if s != [] {
      match SchemaMatch(s)
      case Some(j) =>
        SubSchemaOnlyDropsQuotes(s[j + 1..]);
        DropsQuotesAtMatch(s, j);
      case None =>
        SubSchemaOnlyDropsQuotes(s[1..]);
        DropsQuotesElsewhere(s);
    }
  }

  /** A string with no `active_schema='` in it is left as it is. */
  lemma {:induction false} SubSchemaIdentity(s: string)
    requires forall i :: 0 <= i <= |s| ==> !IsAt(s, i, SchemaKey)
    ensures SubSchema(s) == s
    decreases |s|
  {
    if s != [] {
      assert !IsAt(s, 0, SchemaKey);
      forall i | 0 <= i <= |s[1..]| ensures !IsAt(s[1..], i, SchemaKey) {
        assert !IsAt(s, i + 1, SchemaKey);
        if i + 15 <= |s[1..]| {
          assert s[1..][i..i + 15] == s[i + 1..i + 1 + 15];
        }
      }
      SubSchemaIdentity(s[1..]);
      assert s == [s[0]] + s[1..];
    }
  }

  lemma {:induction false} NonSpaceRunOf(d: string, t: string)
    requires forall k :: 0 <= k < |d| ==> !IsSpace(d[k])
    requires t == [] || IsSpace(t[0])
    ensures NonSpaceRun(d + t) == |d|
    decreases |d|
  {
    if d == [] {
      assert d + t == t;
    } else {
      assert (d + t)[0] == d[0] && (d + t)[1..] == d[1..] + t;
      NonSpaceRunOf(d[1..], t);
    }
  }

  /** Where a match is found, the rewrite emits the unquoted group and goes on after it. */
  lemma SubSchemaAtMatch(s: string, j: nat)
    requires SchemaMatch(s) == Some(j)
    ensures SubSchema(s) == SchemaName + s[15..j] + SubSchema(s[j + 1..])
  {
  }

  /** A schema value without white space, closed by a quote that white space or the end
      follows, is matched up to that quote. */
  lemma SchemaMatchOf(x: string, rest: string)
    requires x != [] && forall k :: 0 <= k < |x| ==> !IsSpace(x[k])
    requires rest == [] || IsSpace(rest[0])
    ensures SchemaMatch(SchemaKey + x + "'" + rest) == Some(15 + |x|)
  {
    var s := SchemaKey + x + "'" + rest;
    var j := 15 + |x|;
    assert s[..15] == SchemaKey;
    assert s[15..] == (x + "'") + rest;
    assert s[j] == '\'';
    NonSpaceRunOf(x + "'", rest);
    assert LastQuote(s, 15, j + 1) == Some(j);
  }

  /** The pieces around a closing quote are found again by slicing. */
  lemma QuotedPieces(k: string, x: string, rest: string)
    ensures (k + x + "'" + rest)[|k|..|k| + |x|] == x
    ensures (k + x + "'" + rest)[|k| + |x| + 1..] == rest
  {
    var s := k + x + "'" + rest;
    assert s == k + (x + ("'" + rest));
    assert s[|k|..] == x + ("'" + rest);
    assert s[|k|..][|x|..] == "'" + rest;
  }

  /** A quoted schema name followed by white space or the end loses exactly its quotes. */
  lemma SubSchemaUnquotes(x: string, rest: string)
    requires x != [] && forall k :: 0 <= k < |x| ==> !IsSpace(x[k])
    requires rest == [] || IsSpace(rest[0])
    ensures SubSchema(SchemaKey + x + "'" + rest) == SchemaName + x + SubSchema(rest)
  {
    var s, j := SchemaKey + x + "'" + rest, 15 + |x|;
    assert s[15..j] == x && s[j + 1..] == rest by {
      QuotedPieces(SchemaKey, x, rest);
      assert |SchemaKey| == 15;
    }
    SchemaMatchOf(x, rest);
    SubSchemaAtMatch(s, j);
  }

  /** validateConnStr: `^PG:`, then `dbname='\S+'`, `host='\S+'` and `port='\d+'` anywhere,
      all ignoring case and checked in that order; on success the string with the quotes
      around an active_schema value removed. */
  function ValidateConnStr(cs: string): (r: Result<string, Error>)
    ensures r.Success? <==>
      && IsAtNoCase(cs, 0, "PG:")
      && (exists i :: 0 <= i <= |cs| && DbNameAt(cs, i))
      && (exists i :: 0 <= i <= |cs| && HostAt(cs, i))
      && (exists i :: 0 <= i <= |cs| && PortAt(cs, i))
    ensures !IsAtNoCase(cs, 0, "PG:") ==> r == Failure(MalformedConnectionString(NotPostgreSQL))
    ensures IsAtNoCase(cs, 0, "PG:") && !(exists i :: 0 <= i <= |cs| && DbNameAt(cs, i)) ==>
      r == Failure(MalformedConnectionString(NoDbName))
    ensures IsAtNoCase(cs, 0, "PG:") && (exists i :: 0 <= i <= |cs| && DbNameAt(cs, i))
            && !(exists i :: 0 <= i <= |cs| && HostAt(cs, i)) ==>
      r == Failure(MalformedConnectionString(NoPgHost))
    ensures IsAtNoCase(cs, 0, "PG:") && (exists i :: 0 <= i <= |cs| && DbNameAt(cs, i))
            && (exists i :: 0 <= i <= |cs| && HostAt(cs, i)) && r.Failure? ==>
      r == Failure(MalformedConnectionString(NoPgPort))
    ensures r.Success? ==> Unquoted(r.value) == Unquoted(cs) && |r.value| <= |cs|
  {
    if !IsAtNoCase(cs, 0, "PG:") then Failure(MalformedConnectionString(NotPostgreSQL))
    else if !Search(cs, DbNameAt) then Failure(MalformedConnectionString(NoDbName))
    else if !Search(cs, HostAt) then Failure(MalformedConnectionString(NoPgHost))
    else if !Search(cs, PortAt) then Failure(MalformedConnectionString(NoPgPort))
    else
      SubSchemaOnlyDropsQuotes(cs);
      Success(SubSchema(cs))
  }

  // ---------------------------------------------------------------------------------------
  // Building the connection string

  /** Python's `'{}'.format(v)`, which shows a missing value as None. */
  function Shown(v: Option<string>): string
  {
    if v.Some? then v.value else "None"
  }

  /** A parameter is written unless it is missing or only white space (empty included). */
  predicate Given(v: Option<string>)
  {
    v.Some? && !AllSpace(v.value)
  }

  /** ` <name><value><close>` for a given value, nothing otherwise. */
  function Part(name: string, v: Option<string>, close: string): (r: string)
    ensures Given(v) ==> r == " " + name + v.value + close
    ensures !Given(v) ==> r == ""
  {
    if Given(v) then " " + name + v.value + close else ""
  }

  /** The pieces of the built string, grouped as Built and Tail group them, in order. */
  lemma FlatConcat(h: string, a: string, b: string, c: string, d: string, e: string)
    ensures h + (a + (b + (c + d + e))) == h + a + b + c + d + e
  {
    AppendAssoc(b, c + d, e);
    AppendAssoc(b, c, d);
    AppendAssoc(a, b + c + d, e);
    AppendAssoc(a, b + c, d);
    AppendAssoc(a, b, c);
    AppendAssoc(h, a + b + c + d, e);
    AppendAssoc(h, a + b + c, d);
    AppendAssoc(h, a + b, c);
    AppendAssoc(h, a, b);
  }

  /** The PostgreSQL parameters of the configuration. */
  datatype PgConfig = PgConfig(host: Option<string>, port: Option<string>, dbname: Option<string>,
                               schema: Option<string>, usr: Option<string>, pwd: Option<string>)

  class PgStore {
    const connStr: Option<string>
    const host: Option<string>
    const port: Option<string>
    const dbname: Option<string>
    const schema: Option<string>
    const usr: Option<string>
    const pwd: Option<string>

    constructor (connStr: Option<string>, c: PgConfig)
      ensures this.connStr == connStr
      ensures host == c.host && port == c.port && dbname == c.dbname
      ensures schema == c.schema && usr == c.usr && pwd == c.pwd
    {
      this.connStr := connStr;
      host, port, dbname := c.host, c.port, c.dbname;
      schema, usr, pwd := c.schema, c.usr, c.pwd;
    }

    /** The parameters after the database name, in the order they are written. */
    function Tail(): string
    {
      Part("host='", host, "'") + (Part("port='", port, "'") + Credentials())
    }

    /** The user, password and schema parameters. */
    function Credentials(): string
    {
      Part("user='", usr, "'") + Part("password='", pwd, "'") + Part("active_schema=", schema, "")
    }

    /** _commonURI: the validated connection string when there is one; otherwise the
        database name, always present, followed by the given parameters. */
    function CommonURI(): (r: Result<string, Error>)
      ensures connStr.Some? ==> r == ValidateConnStr(connStr.value)
      ensures connStr.None? ==> r == Success("PG:dbname='" + Shown(dbname) + "'" + Part("host='", host, "'")
        + Part("port='", port, "'") + Part("user='", usr, "'") + Part("password='", pwd, "'")
        + Part("active_schema=", schema, ""))
    {
      if connStr.Some? then ValidateConnStr(connStr.value)
      else
        assert "PG:" + "dbname='" == "PG:dbname='";
        FlatConcat("PG:dbname='" + Shown(dbname) + "'", Part("host='", host, "'"), Part("port='", port, "'"),
          Part("user='", usr, "'"), Part("password='", pwd, "'"), Part("active_schema=", schema, ""));
        Success(Built())
    }

    /** The string written from the configuration. */
    function Built(): string
    {
      "PG:" + "dbname='" + Shown(dbname) + "'" + Tail()
    }

    /** sourceURI. */
    function SourceURI(layer: string): Result<string, Error>
    {
      CommonURI()
    }

    /** destinationURI: the same connection as the source, whatever the layer. */
    function DestinationURI(layer: string): (r: Result<string, Error>)
      ensures r == SourceURI(layer)
    {
      CommonURI()
    }

    /** The database name check passes on the built string when the name is non-empty
        and free of white space. */
    lemma BuiltHasDbName()
      requires dbname.Some? && dbname.value != [] && forall k :: 0 <= k < |dbname.value| ==> !IsSpace(dbname.value[k])
      ensures DbNameAt(Built(), 3)
    {
      QuotedAtPiece("PG:", "dbname='", dbname.value, Tail(), NotSpace);
    }

    /** The host check passes on the built string when the host is non-empty and free of
        white space. */
    lemma BuiltHasHost()
      requires host.Some? && host.value != [] && forall k :: 0 <= k < |host.value| ==> !IsSpace(host.value[k])
      ensures HostAt(Built(), |"PG:" + "dbname='" + Shown(dbname) + "'"| + 1)
    {
      assert !AllSpace(host.value) by { assert !IsSpace(host.value[0]); }
      var rest := Part("port='", port, "'") + Credentials();
      assert QuotedAt(Tail(), 1, "host='", NotSpace) by {
        assert Tail() == " " + "host='" + host.value + "'" + rest;
        QuotedAtPiece(" ", "host='", host.value, rest, NotSpace);
      }
      QuotedAtShift("PG:" + "dbname='" + Shown(dbname) + "'", Tail(), 1, "host='", NotSpace);
    }

    /** The port check passes on the built string when the port is a non-empty run of
        digits. */
    lemma BuiltHasPort()
      requires port.Some? && port.value != [] && forall k :: 0 <= k < |port.value| ==> IsDigit(port.value[k])
      ensures PortAt(Built(), |"PG:" + "dbname='" + Shown(dbname) + "'"| + |Part("host='", host, "'")| + 1)
    {
      var head := "PG:" + "dbname='" + Shown(dbname) + "'";
      var i := |Part("host='", host, "'")| + 1;
      PortInTail();
      QuotedAtShift(head, Tail(), i, "port='", IsDigit);
      assert Built() == head + Tail();
    }

    /** The port check finds the port after the host part of the tail. */
    lemma PortInTail()
      requires port.Some? && port.value != [] && forall k :: 0 <= k < |port.value| ==> IsDigit(port.value[k])
      ensures QuotedAt(Tail(), |Part("host='", host, "'")| + 1, "port='", IsDigit)
    {
      assert !AllSpace(port.value) by { assert IsDigit(port.value[0]); }
      var hp, c := Part("host='", host, "'"), Credentials();
      var portOn := Part("port='", port, "'") + c;
      assert QuotedAt(portOn, 1, "port='", IsDigit) by {
        assert portOn == " " + "port='" + port.value + "'" + c;
        QuotedAtPiece(" ", "port='", port.value, c, IsDigit);
      }
      QuotedAtShift(hp, portOn, 1, "port='", IsDigit);
    }

    /** A string built from a configuration with a database name and host free of white space
        and a numeric port passes validateConnStr. */
    lemma BuiltStringValidates()
      requires connStr.None?
      requires dbname.Some? && dbname.value != [] && forall k :: 0 <= k < |dbname.value| ==> !IsSpace(dbname.value[k])
      requires host.Some? && host.value != [] && forall k :: 0 <= k < |host.value| ==> !IsSpace(host.value[k])
      requires port.Some? && port.value != [] && forall k :: 0 <= k < |port.value| ==> IsDigit(port.value[k])
      ensures CommonURI() == Success(Built()) && ValidateConnStr(Built()).Success?
    {
      BuiltHasDbName();
      BuiltHasHost();
      BuiltHasPort();
      assert IsAtNoCase(Built(), 0, "PG:") by {
        assert Built()[..3] == "PG:";
        IsAtIgnoringCase(Built(), 0, "PG:");
      }
    }
  }
}
