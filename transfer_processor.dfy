/** The transfer decision engine of LDSIncremental: which layers a run works on, which of full,
    automatic-incremental and defined-incremental replication it performs, which CQL filter
    the source request carries, and when the per-layer watermark of the destination moves. */
module TransferProcessor {
  import opened Common
  import opened Text
  import opened LDSDataStore

  // ---------------------------------------------------------------------------------------
  // Dates

  /** What `datetime.strptime(s, '%Y-%M-%d')` reads from a date: `%M` is the minute
      directive, so the middle field lands in the minutes, the month stays January and the
      hour stays 0. */
  datatype Stamp = Stamp(year: int, minute: int, day: int)

  /** Datetime order on such stamps: year, then (month, always equal) day, then (hour,
      always equal) minute. */
  predicate Later(a: Stamp, b: Stamp)
  {
    a.year > b.year || (a.year == b.year && (a.day > b.day || (a.day == b.day && a.minute > b.minute)))
  }

  /** The order the comparison uses is a strict order. */
  lemma LaterIsStrictOrder(a: Stamp, b: Stamp, c: Stamp)
    ensures !Later(a, a)
    ensures Later(a, b) ==> !Later(b, a)
    ensures Later(a, b) && Later(b, c) ==> Later(a, c)
  {
  }

  /** Because the middle field is read as minutes, a date in an earlier month of the same year
      counts as later whenever its day of the month is larger. */
  lemma MiddleFieldRanksBelowDay(year: int, m1: int, d1: int, m2: int, d2: int)
    requires m1 < m2 && d1 > d2
    ensures Later(Stamp(year, m1, d1), Stamp(year, m2, d2))
  {
  }

  // ---------------------------------------------------------------------------------------
  // CQL precedence

  /** establishCQLPrecedence: the command-line value whenever it is given, even when empty;
      otherwise a non-empty configured value; otherwise a non-empty per-layer value;
      otherwise nothing. */
  function Precedence(cmdline: Option<string>, config: Option<string>, layer: Option<string>): (r: Option<string>)
    ensures cmdline.Some? ==> r == cmdline
    ensures cmdline.None? && config.Some? && config.value != "" ==> r == config
    ensures cmdline.None? && (config.None? || config.value == "") ==> r == (if layer == Some("") then None else layer)
    ensures r == Some("") ==> cmdline == Some("")
  {
    if cmdline.Some? then cmdline
    else if config.Some? && config.value != "" then config
    else if layer.Some? && layer.value != "" then layer
    else None
  }

  /** Feeding the chosen filter back in as the configured one keeps it, whatever the next
      layer's own filter is: once a run has chosen a filter, every later layer of the run
      keeps it. */
  lemma PrecedenceSticks(cmdline: Option<string>, config: Option<string>, layer: Option<string>,
                         next: Option<string>)
    requires Precedence(cmdline, config, layer) != None
    ensures Precedence(cmdline, Precedence(cmdline, config, layer), next) == Precedence(cmdline, config, layer)
  {
  }

  // ---------------------------------------------------------------------------------------
  // The working layer list

  /** The characters `lstrip('v:x')` removes. */
  const LayerPrefixChars: set<char> := {'v', ':', 'x'}

  /** The stripped image of a set of layer names. */
  function Stripped(names: set<string>): set<string>
  {
    set n | n in names :: LStrip(n, LayerPrefixChars)
  }

  /** On an LDS layer identifier, stripping the characters v, : and x leaves exactly its
      number, because the digits that follow the prefix are none of them. */
  lemma StripLayerId(n: string)
    requires IsLayerId(n)
    ensures LStrip(n, LayerPrefixChars) == n[3..]
  {
    var r := LStrip(n, LayerPrefixChars);
    var d := |n| - |r|;
    assert n[0] == n[..3][0] == 'v' && n[1] == n[..3][1] == ':' && n[2] == n[..3][2] == 'x';
    assert n[3] !in LayerPrefixChars by { assert IsDigit(n[3]); }
    assert d <= 3;
    assert n[d] !in LayerPrefixChars by { assert r[0] == n[d]; }
    assert d == 3;
    assert r == n[3..];
  }

  /** Adding one name to a set adds its stripped form to the image. */
  lemma StrippedInsert(names: set<string>, x: string)
    ensures Stripped(names + {x}) == Stripped(names) + {LStrip(x, LayerPrefixChars)}
  {
    forall y | y in Stripped(names + {x})
      ensures y in Stripped(names) + {LStrip(x, LayerPrefixChars)}
    {
      var n :| n in names + {x} && y == LStrip(n, LayerPrefixChars);
      if n != x {
        assert n in names;
      }
    }
    forall y | y in Stripped(names) + {LStrip(x, LayerPrefixChars)}
      ensures y in Stripped(names + {x})
    {
      if y != LStrip(x, LayerPrefixChars) {
        var n :| n in names && y == LStrip(n, LayerPrefixChars);
        assert n in names + {x};
      }
    }
  }

  /** `map(lambda x: x.lstrip('v:x'), set(full).intersection(set(config)))`: the names both
      lists share, each stripped once, in the unspecified order of iterating over a set. */
  method WorkingLayers(full: seq<string>, config: seq<string>) returns (lnl: seq<string>)
    ensures |lnl| == |set n | n in full && n in config|
    ensures forall y :: y in lnl <==> y in Stripped(set n | n in full && n in config)
  {
    var shared := set n | n in full && n in config;
    var rem := shared;
    ghost var done: set<string> := {};
    lnl := [];
    while rem != {}
      invariant done + rem == shared && done * rem == {}
      invariant |lnl| == |done|
      invariant forall y :: y in lnl <==> y in Stripped(done)
      decreases |rem|
    {
      var x :| x in rem;
      StrippedInsert(done, x);
      lnl := lnl + [LStrip(x, LayerPrefixChars)];
      rem := rem - {x};
      done := done + {x};
    }
    assert done == shared;
  }

  /** For LDS layer identifiers, the stripped image holds exactly their numbers. */
  lemma StrippedLayerIds(names: set<string>)
    requires forall n :: n in names ==> IsLayerId(n)
    ensures forall y :: y in Stripped(names) <==> "v:x" + y in names
  {
    forall y
      ensures y in Stripped(names) <==> "v:x" + y in names
    {
      if y in Stripped(names) {
        var n :| n in names && y == LStrip(n, LayerPrefixChars);
        StripLayerId(n);
        assert n == n[..3] + n[3..];
      }
      if "v:x" + y in names {
        var n := "v:x" + y;
        StripLayerId(n);
        assert n[3..] == y;
      }
    }
  }

  // ---------------------------------------------------------------------------------------
  // The destination datastore

  /** A call the transfer makes on the destination. */
  datatype Event =
    | Write(source: Option<string>, target: string)   // write(src, destinationURI(layer))
    | Now(stamp: string)                               // getCurrent(None)
    | Mark(layer: string, stamp: string)               // setLastModified(layer, stamp)

  /** The watermark of a layer, or the destination's default when it has none. */
  function StampOf(watermark: map<string, string>, layer: string, never: string): (stamp: string)
    ensures layer in watermark ==> stamp == watermark[layer]
    ensures layer !in watermark ==> stamp == never
  {
    if layer in watermark then watermark[layer] else never
  }

  /** The destination datastore as the transfer sees it: its layer configuration, its
      per-layer watermark and the calls made on it. */
  class Destination {
    /** getLayerNames of the layer configuration. */
    const layerNames: seq<string>
    /** readCQLFilter of the layer configuration. */
    const layerCQL: string -> Option<string>
    /** destinationURI. */
    const uri: string -> string
    /** What getCurrent answers when it is the n-th call on the destination. */
    const clock: nat -> string
    /** What getLastModified answers for a layer without a watermark. */
    const never: string
    var watermark: map<string, string>
    var trace: seq<Event>

    constructor (layerNames: seq<string>, layerCQL: string -> Option<string>, uri: string -> string,
                 clock: nat -> string, never: string, watermark: map<string, string>)
      ensures this.layerNames == layerNames && this.layerCQL == layerCQL && this.uri == uri
      ensures this.clock == clock && this.never == never
      ensures this.watermark == watermark && trace == []
    {
      this.layerNames, this.layerCQL, this.uri := layerNames, layerCQL, uri;
      this.clock, this.never := clock, never;
      this.watermark := watermark;
      this.trace := [];
    }

    /** getLastModified. */
    function LastModified(layer: string): string
      reads this
    {
      StampOf(watermark, layer, never)
    }

    /** getCurrent(None). */
    method GetCurrent() returns (stamp: string)
      modifies this
      ensures stamp == clock(|old(trace)|)
      ensures trace == old(trace) + [Now(stamp)] && watermark == old(watermark)
    {
      stamp := clock(|trace|);
      trace := trace + [Now(stamp)];
    }

    /** write: copies what the source has opened to the target. */
    method Write(source: Option<string>, target: string)
      modifies this
      ensures trace == old(trace) + [Event.Write(source, target)] && watermark == old(watermark)
    {
      trace := trace + [Event.Write(source, target)];
    }

    /** setLastModified. */
    method SetLastModified(layer: string, stamp: string)
      modifies this
      ensures watermark == old(watermark)[layer := stamp]
      ensures trace == old(trace) + [Mark(layer, stamp)]
    {
      watermark := watermark[layer := stamp];
      trace := trace + [Mark(layer, stamp)];
    }
  }

  // ---------------------------------------------------------------------------------------
  // The state a transfer changes

  /** The source's filter, incremental flag, open data source and reads, and the
      destination's watermark and calls. */
  datatype World = World(filter: Option<string>, incremental: bool, ds: Option<string>, fetched: seq<string>,
                         watermark: map<string, string>, trace: seq<Event>)

  /** The state after a step and whether it completed or raised. */
  datatype Outcome<T> = Outcome(world: World, result: Result<T, Error>)

  /** The two watermarks agree outside the given layers. */
  ghost predicate SameExcept(before: map<string, string>, after: map<string, string>, layers: seq<string>)
  {
    forall k :: k !in layers ==> (k in before <==> k in after) && (k in before ==> before[k] == after[k])
  }

  lemma SameExceptCompose(a: map<string, string>, b: map<string, string>, c: map<string, string>,
                          xs: seq<string>, ys: seq<string>)
    requires SameExcept(a, b, xs) && SameExcept(b, c, ys)
    ensures SameExcept(a, c, xs + ys)
  {
    forall k | k !in xs + ys
      ensures (k in a <==> k in c) && (k in a ==> a[k] == c[k])
    {
      assert k !in xs && k !in ys;
    }
  }

  /** The number of writes among the calls. */
  function WriteCount(trace: seq<Event>): nat
  {
    if trace == [] then 0 else (if trace[0].Write? then 1 else 0) + WriteCount(trace[1..])
  }

  lemma {:induction false} WriteCountAppend(a: seq<Event>, b: seq<Event>)
    ensures WriteCount(a + b) == WriteCount(a) + WriteCount(b)
    decreases |a|
  {
    if a == [] {
      assert a + b == b;
    } else {
      assert (a + b)[1..] == a[1..] + b;
      WriteCountAppend(a[1..], b);
    }
  }

  /** Appending calls adds the writes among them. */
  lemma WriteCountPair(a: seq<Event>, e1: Event, e2: Event)
    ensures WriteCount(a + [e1]) == WriteCount(a) + (if e1.Write? then 1 else 0)
    ensures WriteCount(a + [e1, e2]) == WriteCount(a) + (if e1.Write? then 1 else 0) + (if e2.Write? then 1 else 0)
  {
    WriteCountAppend(a, [e1]);
    WriteCountAppend(a, [e1, e2]);
    assert [e1][1..] == [] && [e1, e2][1..] == [e2] && [e2][1..] == [];
  }

  /** The inputs a run has accepted. */
  datatype Inputs = Inputs(fdate: Option<string>, tdate: Option<string>, layer: string)

  /** The three kinds of replication. */
  datatype Mode = Full | Auto | Defined

  /** The mode dispatch of processLDS: full replication when either date is 'ALL', automatic
      increments when a date is missing, and the given range otherwise. */
  function ModeOf(fdate: Option<string>, tdate: Option<string>): (m: Mode)
    ensures m == Full <==> fdate == Some("ALL") || tdate == Some("ALL")
    ensures m == Auto <==> fdate != Some("ALL") && tdate != Some("ALL") && (fdate.None? || tdate.None?)
    ensures m == Defined <==> fdate.Some? && tdate.Some? && fdate.value != "ALL" && tdate.value != "ALL"
  {
    if fdate == Some("ALL") || tdate == Some("ALL") then Full
    else if fdate.None? || tdate.None? then Auto
    else Defined
  }

  // ---------------------------------------------------------------------------------------
  // The processor

  class Processor {
    const fromdate: Option<string>
    const todate: Option<string>
    const layer: Option<string>
    /** The source connection string handed to the LDS datastore. */
    const sourceStr: Option<string>
    /** The command-line CQL filter. */
    const cql: Option<string>
    /** The LDS configuration the source datastore reads, and its configured filter. */
    const lds: WfsConfig
    const configCQL: Option<string>
    const utils: Utilities
    /** datetime.strptime with the format '%Y-%M-%d'; None where it raises ValueError. */
    const strptime: string -> Option<Stamp>
    /** The lines urlopen delivers for a capabilities address. */
    const fetch: string -> seq<string>
    var src: LdsSource?
    var dst: Destination?
    var lnl: seq<string>

    constructor (ly: Option<string>, fd: Option<string>, td: Option<string>, sc: Option<string>, cql: Option<string>,
                 lds: WfsConfig, configCQL: Option<string>, utils: Utilities, strptime: string -> Option<Stamp>,
                 fetch: string -> seq<string>)
      ensures layer == ly && fromdate == fd && todate == td && sourceStr == sc && this.cql == cql
      ensures this.lds == lds && this.configCQL == configCQL && this.utils == utils
      ensures this.strptime == strptime && this.fetch == fetch
      ensures src == null && dst == null && lnl == []
    {
      layer, fromdate, todate, sourceStr, this.cql := ly, fd, td, sc, cql;
      this.lds, this.configCQL, this.utils := lds, configCQL, utils;
      this.strptime, this.fetch := strptime, fetch;
      src, dst, lnl := null, null, [];
    }

    /** The state the source and destination are in. */
    function Snapshot(): World
      reads this, src, dst
      requires src != null && dst != null
    {
      World(src.filter, src.incremental, src.ds, src.readLog, dst.watermark, dst.trace)
    }

    /** The input checks of processLDS, in order: the to-date, the from-date, then the layer
        name. A missing date is accepted; a missing layer name is rejected. */
    function Checked(): (r: Result<Inputs, Error>)
      ensures r.Success? <==>
        && (todate.None? || utils.checkDateFormat(todate.value))
        && (fromdate.None? || utils.checkDateFormat(fromdate.value))
        && layer.Some? && utils.checkLayerName(layer.value)
      ensures r.Success? ==> r.value == Inputs(fromdate, todate, layer.value)
      ensures todate.Some? && !utils.checkDateFormat(todate.value) ==> r == Failure(InputMisconfiguration(ToDate))
      ensures (todate.None? || utils.checkDateFormat(todate.value)) && fromdate.Some? && !utils.checkDateFormat(fromdate.value)
              ==> r == Failure(InputMisconfiguration(FromDate))
      ensures r.Failure? && r.error == InputMisconfiguration(LayerName) ==> layer.None? || !utils.checkLayerName(layer.value)
    {
      if todate.Some? && !utils.checkDateFormat(todate.value) then Failure(InputMisconfiguration(ToDate))
      else if fromdate.Some? && !utils.checkDateFormat(fromdate.value) then Failure(InputMisconfiguration(FromDate))
      else if layer.None? || !utils.checkLayerName(layer.value) then Failure(InputMisconfiguration(LayerName))
      else Success(Inputs(fromdate, todate, layer.value))
    }

    /** definedIncremental on values: the resolved filter is set first; only a to-date
        strictly later than the from-date reads the changeset, writes it and moves the
        watermark to the to-date. */
    function DefinedStep(s: LdsSource, d: Destination, w: World, l: string, f: string, t: string): Outcome<string>
    {
      var filter := Precedence(cql, w.filter, d.layerCQL(utils.cropChangeset(l)));
      var w1 := w.(filter := filter);
      if strptime(t).None? || strptime(f).None? then Outcome(w1, Failure(ValueError))
      else if Later(strptime(t).value, strptime(f).value) then
        var uri := s.SourceURIIncrd(filter, Some(l), Some(f), Some(t)).value;
        Outcome(World(filter, true, Some(uri), w.fetched + [uri], w.watermark[l := t],
                      w.trace + [Event.Write(Some(uri), d.uri(l)), Mark(l, t)]),
                Success(t))
      else Outcome(w1, Success(t))
    }

    /** autoIncrementLayer on values: the range runs from the layer's watermark to the
        destination's current time. */
    function AutoStep(s: LdsSource, d: Destination, w: World, l: string): Outcome<()>
    {
      var now := d.clock(|w.trace|);
      var o := DefinedStep(s, d, w.(trace := w.trace + [Now(now)]), l, StampOf(w.watermark, l, d.never), now);
      Outcome(o.world, if o.result.Success? then Success(()) else Failure(o.result.error))
    }

    /** fullReplicateLayer on values: read, write, then stamp the layer with the time the
        destination gives after the write. */
    function FullStep(s: LdsSource, d: Destination, w: World, l: string): World
    {
      var uri := s.SourceURI(w.filter, Some(l)).value;
      var trace := w.trace + [Event.Write(Some(uri), d.uri(l))];
      var now := d.clock(|trace|);
      w.(ds := Some(uri), fetched := w.fetched + [uri], watermark := w.watermark[l := now],
         trace := trace + [Now(now), Mark(l, now)])
    }

    /** Full replication of each layer of a list in turn. */
    function FullAll(s: LdsSource, d: Destination, w: World, ls: seq<string>): World
    {
      if ls == [] then w else FullStep(s, d, FullAll(s, d, w, ls[..|ls| - 1]), ls[|ls| - 1])
    }

    /** Automatic increments of each layer of a list in turn, stopping at the first error. */
    function AutoAll(s: LdsSource, d: Destination, w: World, ls: seq<string>): Outcome<()>
    {
      if ls == [] then Outcome(w, Success(()))
      else
        var o := AutoAll(s, d, w, ls[..|ls| - 1]);
        if o.result.Failure? then o else AutoStep(s, d, o.world, ls[|ls| - 1])
    }

    /** The dispatch of processLDS once the inputs are accepted. Only the full and automatic
        modes expand 'ALL' into the working list. */
    function Dispatch(s: LdsSource, d: Destination, w: World, ls: seq<string>, inputs: Inputs): Outcome<()>
    {
      match ModeOf(inputs.fdate, inputs.tdate)
      case Full =>
        Outcome(if inputs.layer == "ALL" then FullAll(s, d, w, ls) else FullStep(s, d, w, inputs.layer), Success(()))
      case Auto =>
        if inputs.layer == "ALL" then AutoAll(s, d, w, ls) else AutoStep(s, d, w, inputs.layer)
      case Defined =>
        var o := DefinedStep(s, d, w, inputs.layer, inputs.fdate.value, inputs.tdate.value);
        Outcome(o.world, if o.result.Success? then Success(()) else Failure(o.result.error))
    }

    /** definedIncremental. */
    method DefinedIncremental(l: string, f: string, t: string) returns (r: Result<string, Error>)
      requires src != null && dst != null
      modifies src, dst
      ensures Outcome(Snapshot(), r) == DefinedStep(src, dst, old(Snapshot()), l, f, t)
    {
      src.SetFilter(Precedence(cql, src.filter, dst.layerCQL(utils.cropChangeset(l))));
      var ts, fs := strptime(t), strptime(f);
      if ts.None? || fs.None? {
        return Failure(ValueError);
      }
      if Later(ts.value, fs.value) {
        src.SetIncremental();
        var uri := src.SourceURIIncrd(src.filter, Some(l), Some(f), Some(t));
        src.Read(uri.value);
        dst.Write(src.ds, dst.uri(l));
        dst.SetLastModified(l, t);
      }
      r := Success(t);
    }

    /** autoIncrementLayer. */
    method AutoIncrementLayer(l: string) returns (r: Result<(), Error>)
      requires src != null && dst != null
      modifies src, dst
      ensures Outcome(Snapshot(), r) == AutoStep(src, dst, old(Snapshot()), l)
    {
      var f := dst.LastModified(l);
      var t := dst.GetCurrent();
      var d := DefinedIncremental(l, f, t);
      r := if d.Success? then Success(()) else Failure(d.error);
    }

    /** fullReplicateLayer. */
    method FullReplicateLayer(l: string)
      requires src != null && dst != null
      modifies src, dst
      ensures Snapshot() == FullStep(src, dst, old(Snapshot()), l)
    {
      var uri := src.SourceURI(src.filter, Some(l));
      src.Read(uri.value);
      dst.Write(src.ds, dst.uri(l));
      var now := dst.GetCurrent();
      dst.SetLastModified(l, now);
    }

    /** fullReplicate: every layer of the working list for 'ALL', else the one layer. */
    method FullReplicate(l: string)
      requires src != null && dst != null
      modifies src, dst
      ensures l == "ALL" ==> Snapshot() == FullAll(src, dst, old(Snapshot()), lnl)
      ensures l != "ALL" ==> Snapshot() == FullStep(src, dst, old(Snapshot()), l)
    {
      if l == "ALL" {
        ghost var w0 := old(Snapshot());
        var i := 0;
        while i < |lnl|
          invariant 0 <= i <= |lnl|
          invariant Snapshot() == FullAll(src, dst, w0, lnl[..i])
        {
          assert lnl[..i + 1][..i] == lnl[..i];
          FullReplicateLayer(lnl[i]);
          i := i + 1;
        }
        assert lnl[..|lnl|] == lnl;
      } else {
        FullReplicateLayer(l);
      }
    }

    /** autoIncrement: every layer of the working list for 'ALL', else the one layer. */
    method AutoIncrement(l: string) returns (r: Result<(), Error>)
      requires src != null && dst != null
      modifies src, dst
      ensures l == "ALL" ==> Outcome(Snapshot(), r) == AutoAll(src, dst, old(Snapshot()), lnl)
      ensures l != "ALL" ==> Outcome(Snapshot(), r) == AutoStep(src, dst, old(Snapshot()), l)
    {
      if l == "ALL" {
        ghost var w0 := old(Snapshot());
        var i := 0;
        while i < |lnl|
          invariant 0 <= i <= |lnl|
          invariant AutoAll(src, dst, w0, lnl[..i]) == Outcome(Snapshot(), Success(()))
        {
          AutoAllNext(src, dst, w0, lnl, i);
          r := AutoIncrementLayer(lnl[i]);
          if r.Failure? {
            AutoAllStops(src, dst, w0, lnl, i + 1);
            return;
          }
          i := i + 1;
        }
        assert lnl[..|lnl|] == lnl;
        r := Success(());
      } else {
        r := AutoIncrementLayer(l);
      }
    }

    /** One more layer after a prefix that succeeded is one more automatic step. */
    lemma AutoAllNext(s: LdsSource, d: Destination, w: World, ls: seq<string>, i: nat)
      requires i < |ls| && AutoAll(s, d, w, ls[..i]).result.Success?
      ensures AutoAll(s, d, w, ls[..i + 1]) == AutoStep(s, d, AutoAll(s, d, w, ls[..i]).world, ls[i])
    {
      assert ls[..i + 1][..i] == ls[..i];
    }

    /** Once a layer of the list has raised, the rest of the list is not processed. */
    lemma {:induction false} AutoAllStops(s: LdsSource, d: Destination, w: World, ls: seq<string>, i: nat)
      requires 0 < i <= |ls| && AutoAll(s, d, w, ls[..i]).result.Failure?
      ensures AutoAll(s, d, w, ls) == AutoAll(s, d, w, ls[..i])
      decreases |ls| - i
    {
      if i < |ls| {
        assert ls[..i + 1][..i] == ls[..i];
        AutoAllStops(s, d, w, ls, i + 1);
      } else {
        assert ls[..i] == ls;
      }
    }

    /** processLDS with the destination given: create the LDS source, work out the layer list
        from its capabilities, check the inputs and dispatch. */
    method ProcessLDS(d: Destination) returns (r: Result<(), Error>)
      modifies this, d
      ensures dst == d && src != null && fresh(src) && src.connStr == sourceStr
      ensures var shared := set n | n in NamesIn(fetch(src.GetCapabilities())) && n in d.layerNames;
        && |lnl| == |shared|
        && forall y :: y in lnl <==> "v:x" + y in NamesIn(fetch(src.GetCapabilities())) && "v:x" + y in d.layerNames
      ensures var w0 := World(configCQL, false, None, [], old(d.watermark), old(d.trace));
        && (Checked().Failure? ==> r == Failure(Checked().error) && Snapshot() == w0)
        && (Checked().Success? ==> Outcome(Snapshot(), r) == Dispatch(src, d, w0, lnl, Checked().value))
    {
      dst := d;
      src := new LdsSource(sourceStr, lds, configCQL, utils);
      var full := FetchLayerNames(fetch(src.GetCapabilities()));
      lnl := WorkingLayers(full, dst.layerNames);
      StrippedLayerIds(set n | n in full && n in dst.layerNames);
      var inputs := Checked();
      if inputs.Failure? {
        return Failure(inputs.error);
      }
      var l, fdate, tdate := inputs.value.layer, inputs.value.fdate, inputs.value.tdate;
      var mode := ModeOf(fdate, tdate);
      if mode == Full {
        FullReplicate(l);
        r := Success(());
      } else if mode == Auto {
        r := AutoIncrement(l);
      } else {
        var t := DefinedIncremental(l, fdate.value, tdate.value);
        r := if t.Success? then Success(()) else Failure(t.error);
      }
    }

    // -------------------------------------------------------------------------------------
    // Properties of the steps

    /** definedIncremental always answers the to-date it was given unless a date cannot be
        read; with a later to-date it reads once, writes once, and moves only this layer's
        watermark, to the to-date; otherwise only the filter has changed. */
    lemma DefinedStepEffect(s: LdsSource, d: Destination, w: World, l: string, f: string, t: string)
      ensures var o := DefinedStep(s, d, w, l, f, t);
        && (o.result.Success? <==> strptime(t).Some? && strptime(f).Some?)
        && (o.result.Success? ==> o.result.value == t)
        && (o.result.Success? && Later(strptime(t).value, strptime(f).value) ==>
              && |o.world.fetched| == |w.fetched| + 1
              && o.world.ds == Some(o.world.fetched[|w.fetched|])
              && o.world.watermark == w.watermark[l := t]
              && o.world.trace == w.trace + [Event.Write(o.world.ds, d.uri(l)), Mark(l, t)])
        && (o.result.Failure? || !Later(strptime(t).value, strptime(f).value) ==>
              o.world == w.(filter := o.world.filter))
        && o.world.filter == Precedence(cql, w.filter, d.layerCQL(utils.cropChangeset(l)))
    {
    }

    /** `b` is `a` or a date strictly later than `a`, as the comparison of
        definedIncremental reads them. */
    ghost predicate NoEarlier(a: string, b: string)
    {
      a == b || (strptime(a).Some? && strptime(b).Some? && Later(strptime(b).value, strptime(a).value))
    }

    lemma NoEarlierTransitive(a: string, b: string, c: string)
      requires NoEarlier(a, b) && NoEarlier(b, c)
      ensures NoEarlier(a, c)
    {
      if a != b && b != c {
        LaterIsStrictOrder(strptime(c).value, strptime(b).value, strptime(a).value);
      }
    }

    /** One automatic increment changes no watermark but the layer's own and never moves
        that one back. */
    lemma AutoStepMovesForward(s: LdsSource, d: Destination, w: World, l: string)
      ensures var o := AutoStep(s, d, w, l);
        && SameExcept(w.watermark, o.world.watermark, [l])
        && NoEarlier(StampOf(w.watermark, l, d.never), StampOf(o.world.watermark, l, d.never))
    {
    }

    /** One automatic increment only adds calls on the destination, and reads exactly as often
        as it writes. */
    lemma AutoStepBalanced(s: LdsSource, d: Destination, w: World, l: string)
      ensures var o := AutoStep(s, d, w, l);
        && w.trace <= o.world.trace
        && |o.world.fetched| - |w.fetched| == WriteCount(o.world.trace) - WriteCount(w.trace)
    {
      var now := d.clock(|w.trace|);
      var w1 := w.(trace := w.trace + [Now(now)]);
      var o := DefinedStep(s, d, w1, l, StampOf(w.watermark, l, d.never), now);
      WriteCountPair(w.trace, Now(now), Now(now));
      if o.world.trace != w1.trace {
        var uri := o.world.fetched[|w.fetched|];
        WriteCountPair(w1.trace, Event.Write(Some(uri), d.uri(l)), Mark(l, now));
      }
    }

    /** Automatic increments over a list change only the listed layers' watermarks and never
        move any watermark back, whether or not a layer raised. */
    lemma {:induction false} AutoAllMovesForward(s: LdsSource, d: Destination, w: World, ls: seq<string>)
      ensures var o := AutoAll(s, d, w, ls);
        && SameExcept(w.watermark, o.world.watermark, ls)
        && forall k :: NoEarlier(StampOf(w.watermark, k, d.never), StampOf(o.world.watermark, k, d.never))
      decreases |ls|
    {
      if ls != [] {
        var init, last := ls[..|ls| - 1], ls[|ls| - 1];
        AutoAllMovesForward(s, d, w, init);
        var m := AutoAll(s, d, w, init);
        assert ls == init + [last];
        if m.result.Success? {
          var o := AutoStep(s, d, m.world, last);
          AutoStepMovesForward(s, d, m.world, last);
          SameExceptCompose(w.watermark, m.world.watermark, o.world.watermark, init, [last]);
          forall k
            ensures NoEarlier(StampOf(w.watermark, k, d.never), StampOf(o.world.watermark, k, d.never))
          {
            if k == last {
              NoEarlierTransitive(StampOf(w.watermark, k, d.never), StampOf(m.world.watermark, k, d.never),
                                  StampOf(o.world.watermark, k, d.never));
            } else {
              assert StampOf(o.world.watermark, k, d.never) == StampOf(m.world.watermark, k, d.never);
            }
          }
        }
      }
    }

    /** Automatic increments over a list only add calls on the destination, and read exactly
        as often as they write. */
    lemma {:induction false} AutoAllBalanced(s: LdsSource, d: Destination, w: World, ls: seq<string>)
      ensures var o := AutoAll(s, d, w, ls);
        && w.trace <= o.world.trace
        && |o.world.fetched| - |w.fetched| == WriteCount(o.world.trace) - WriteCount(w.trace)
      decreases |ls|
    {
      if ls != [] {
        var init, last := ls[..|ls| - 1], ls[|ls| - 1];
        AutoAllBalanced(s, d, w, init);
        var m := AutoAll(s, d, w, init);
        if m.result.Success? {
          AutoStepBalanced(s, d, m.world, last);
        }
      }
    }

    /** One full replication reads the layer's source address, writes it to the layer's
        destination, then asks the destination for the time and stamps the layer with that
        reading: the reading is taken after the write. Only that watermark changes, there is
        one read and one write, and the filter is left alone. */
    lemma FullStepEffect(s: LdsSource, d: Destination, w: World, l: string)
      ensures var v, uri, t := FullStep(s, d, w, l), s.SourceURI(w.filter, Some(l)).value, d.clock(|w.trace| + 1);
        && v.trace == w.trace + [Event.Write(Some(uri), d.uri(l)), Now(t), Mark(l, t)]
        && v.watermark == w.watermark[l := t]
        && v.fetched == w.fetched + [uri] && v.ds == Some(uri)
        && w.trace <= v.trace
        && SameExcept(w.watermark, v.watermark, [l])
        && l in v.watermark && Now(v.watermark[l]) in v.trace[|w.trace|..]
        && |v.fetched| == |w.fetched| + 1
        && WriteCount(v.trace) == WriteCount(w.trace) + 1
        && v.filter == w.filter
    {
      var uri := s.SourceURI(w.filter, Some(l)).value;
      var trace := w.trace + [Event.Write(Some(uri), d.uri(l))];
      var now := d.clock(|trace|);
      assert (trace + [Now(now), Mark(l, now)])[|w.trace|..] == [Event.Write(Some(uri), d.uri(l)), Now(now), Mark(l, now)];
      WriteCountPair(w.trace, Event.Write(Some(uri), d.uri(l)), Now(now));
      WriteCountPair(trace, Now(now), Mark(l, now));
    }

    /** Full replication of a list stamps every listed layer with a time the destination gave
        during the run and changes no other watermark. */
    lemma {:induction false} FullAllStamps(s: LdsSource, d: Destination, w: World, ls: seq<string>)
      ensures var v := FullAll(s, d, w, ls);
        && w.trace <= v.trace
        && SameExcept(w.watermark, v.watermark, ls)
        && (forall l :: l in ls ==> l in v.watermark && Now(v.watermark[l]) in v.trace[|w.trace|..])
      decreases |ls|
    {
      if ls != [] {
        var init, last := ls[..|ls| - 1], ls[|ls| - 1];
        FullAllStamps(s, d, w, init);
        var m := FullAll(s, d, w, init);
        var v := FullStep(s, d, m, last);
        FullStepEffect(s, d, m, last);
        assert ls == init + [last];
        SameExceptCompose(w.watermark, m.watermark, v.watermark, init, [last]);
        assert m.trace[|w.trace|..] <= v.trace[|w.trace|..];
        assert v.trace[|m.trace|..] == v.trace[|w.trace|..][|m.trace| - |w.trace|..];
        forall l | l in ls
          ensures l in v.watermark && Now(v.watermark[l]) in v.trace[|w.trace|..]
        {
          if l != last {
            assert l in init;
          }
        }
      }
    }

    /** Full replication of a list reads and writes once per layer and never consults the
        command-line filter. */
    lemma {:induction false} FullAllCounts(s: LdsSource, d: Destination, w: World, ls: seq<string>)
      ensures var v := FullAll(s, d, w, ls);
        && |v.fetched| == |w.fetched| + |ls|
        && WriteCount(v.trace) == WriteCount(w.trace) + |ls|
        && v.filter == w.filter
      decreases |ls|
    {
      if ls != [] {
        FullAllCounts(s, d, w, ls[..|ls| - 1]);
        FullStepEffect(s, d, FullAll(s, d, w, ls[..|ls| - 1]), ls[|ls| - 1]);
      }
    }

    /** Once the source carries a filter that precedence would keep, automatic increments over
        any list keep it, whatever each layer's own filter: the first layer's choice holds for
        the whole run. */
    lemma {:induction false} AutoAllKeepsFilter(s: LdsSource, d: Destination, w: World, ls: seq<string>)
      requires w.filter != None && Precedence(cql, w.filter, None) == w.filter
      ensures AutoAll(s, d, w, ls).world.filter == w.filter
      decreases |ls|
    {
      if ls != [] {
        AutoAllKeepsFilter(s, d, w, ls[..|ls| - 1]);
      }
    }

    /** A run changes the watermarks of the working list when full or automatic replication
        is asked for 'ALL', and otherwise at most the watermark of the layer as named, so a
        defined range for 'ALL' moves the watermark of a layer called 'ALL'. */
    lemma DispatchTouches(s: LdsSource, d: Destination, w: World, ls: seq<string>, inputs: Inputs)
      ensures var o := Dispatch(s, d, w, ls, inputs);
        SameExcept(w.watermark, o.world.watermark,
                   if inputs.layer == "ALL" && ModeOf(inputs.fdate, inputs.tdate) != Defined then ls else [inputs.layer])
    {
      var l := inputs.layer;
      match ModeOf(inputs.fdate, inputs.tdate)
      case Full =>
        if l == "ALL" { FullAllStamps(s, d, w, ls); } else { FullStepEffect(s, d, w, l); }
      case Auto =>
        if l == "ALL" { AutoAllMovesForward(s, d, w, ls); } else { AutoStepMovesForward(s, d, w, l); }
      case Defined =>
        DefinedStepEffect(s, d, w, l, inputs.fdate.value, inputs.tdate.value);
    }
  }
}
