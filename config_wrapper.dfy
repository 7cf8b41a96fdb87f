/** ConfigWrapper: the facade over the main configuration file and an optional user file
    that overrides parts of it, position by position. */
module ConfigWrapper {
  import opened Common

  /** A parameter list as read from one section of a configuration file; a key missing
      from the file reads as None. */
  type Params = seq<Option<string>>

  /** The reader objects the wrapper holds. The flag of a main-file reader is the second
      constructor argument (True for the main file, False for the user file). */
  datatype Reader =
    | MainFileReader(path: string, main: bool)
    | LayerFileReader(file: string)

  /** The driver sections of the main configuration file. */
  datatype Section = PostgreSQLSection | MSSQLSection | FileGDBSection | SpatiaLiteSection | WFSSection

  /** The section readDSParameters reads for a driver name; None for an unknown driver. */
  function SectionOf(drv: string): (r: Option<Section>)
    ensures r.Some? <==> drv in {"PostgreSQL", "MSSQLSpatial", "FileGDB", "SQLite", "WFS"}
    ensures r == Some(SpatiaLiteSection) <==> drv == "SQLite"
    ensures r == Some(MSSQLSection) <==> drv == "MSSQLSpatial"
  {
    if drv == "PostgreSQL" then Some(PostgreSQLSection)
    else if drv == "MSSQLSpatial" then Some(MSSQLSection)
    else if drv == "FileGDB" then Some(FileGDBSection)
    else if drv == "SQLite" then Some(SpatiaLiteSection)
    else if drv == "WFS" then Some(WFSSection)
    else None
  }

  // ---------------------------------------------------------------------------------------
  // The merge of the user list over the main list

  function Max(a: nat, b: nat): nat { if a < b then b else a }

  /** Position i of a list, padded with None past its end as Python 2's `map` does. */
  function At(s: Params, i: nat): Option<string>
  {
    if i < |s| then s[i] else None
  }

  /** The merge lambda: the user value unless it is None, else the main value. */
  function Pick(user: Option<string>, main: Option<string>): Option<string>
  {
    if user.None? then main else user
  }

  function Rest(s: Params): Params
  {
    if s == [] then [] else s[1..]
  }

  /** `map(lambda x,y: y if x is None else x, ul, ml)` of Python 2. */
  function Merge(ul: Params, ml: Params): (r: Params)
    ensures |r| == Max(|ul|, |ml|)
    ensures forall i :: 0 <= i < |r| ==> r[i] == Pick(At(ul, i), At(ml, i))
    decreases |ul| + |ml|
  {
    if ul == [] && ml == [] then []
    else
      var tail := Merge(Rest(ul), Rest(ml));
      AtRest(ul);
      AtRest(ml);
      [Pick(At(ul, 0), At(ml, 0))] + tail
  }

  /** Dropping the head shifts every position, padding included, down by one. */
  lemma AtRest(s: Params)
    ensures forall i: nat :: 1 <= i ==> At(Rest(s), i - 1) == At(s, i)
  {
  }

  /** Without a user file the merge gives back the main list unchanged. */
  lemma {:induction false} MergeWithoutUser(ml: Params)
    ensures Merge([], ml) == ml
  {
    var r := Merge([], ml);
    assert |r| == |ml|;
    forall i | 0 <= i < |r| ensures r[i] == ml[i] {
      assert At([], i) == None;
    }
  }

  /** Merging a list over itself changes nothing. */
  lemma {:induction false} MergeIdempotent(m: Params)
    ensures Merge(m, m) == m
  {
    var r := Merge(m, m);
    forall i | 0 <= i < |r| ensures r[i] == m[i] {
      assert At(m, i) == m[i];
    }
  }

  /** Overrides stack: a user list over a merged pair is the merged user lists over main. */
  lemma {:induction false} MergeAssociative(a: Params, b: Params, c: Params)
    ensures Merge(a, Merge(b, c)) == Merge(Merge(a, b), c)
  {
    var l, r := Merge(a, Merge(b, c)), Merge(Merge(a, b), c);
    assert |l| == |r|;
    forall i | 0 <= i < |l| ensures l[i] == r[i] {
      assert At(Merge(b, c), i) == Pick(At(b, i), At(c, i));
      assert At(Merge(a, b), i) == Pick(At(a, i), At(b, i));
    }
  }

  /** A user list with every position present and at least as long as the main list
      replaces the main list entirely. */
  lemma {:induction false} FullUserOverrides(ul: Params, ml: Params)
    requires |ml| <= |ul| && forall i :: 0 <= i < |ul| ==> ul[i].Some?
    ensures Merge(ul, ml) == ul
  {
    var r := Merge(ul, ml);
    forall i | 0 <= i < |r| ensures r[i] == ul[i] {
      assert At(ul, i) == ul[i];
    }
  }

  // ---------------------------------------------------------------------------------------
  // The wrapper object

  class ConfigWrapper {
    const ConfigFile: string := "ldsincr.conf"
    /** The parameter list each reader returns for a section: the files' contents. */
    const contents: (Reader, Section) -> Params

    var userconfig: Option<Reader>
    var mainconfig: Reader
    /** Only set by setupLayerConfig; the constructor leaves it unset. */
    var layerconfig: Option<Reader>

    constructor(configFile: Option<string>, contents: (Reader, Section) -> Params)
      ensures this.contents == contents
      ensures userconfig == (if configFile.Some? then Some(MainFileReader("../" + configFile.value, false)) else None)
      ensures mainconfig == MainFileReader("../ldsincr.conf", true)
      ensures layerconfig == None
    {
      this.contents := contents;
      userconfig := if configFile.Some? then Some(MainFileReader("../" + configFile.value, false)) else None;
      mainconfig := MainFileReader("../" + ConfigFile, true);
      layerconfig := None;
    }

    /** The main file is always ../ldsincr.conf; a user file name is taken relative to the
        parent directory too. */
    method SetupMainConfig(userconfig: Option<string>)
      modifies this
      ensures this.userconfig == (if userconfig.Some? then Some(MainFileReader("../" + userconfig.value, false)) else None)
      ensures mainconfig == MainFileReader("../ldsincr.conf", true)
      ensures layerconfig == old(layerconfig)
    {
      this.userconfig := None;
      if userconfig.Some? {
        this.userconfig := Some(MainFileReader("../" + userconfig.value, false));
      }
      mainconfig := MainFileReader("../" + ConfigFile, true);
    }

    method SetupLayerConfig(filename: string)
      modifies this
      ensures layerconfig == Some(LayerFileReader(filename))
      ensures userconfig == old(userconfig) && mainconfig == old(mainconfig)
    {
      layerconfig := Some(LayerFileReader(filename));
    }

    /** readDSParameters: None for an unknown driver; otherwise the driver's section of the
        main file, overridden position by position by the same section of the user file
        when there is one. */
    function ReadDSParameters(drv: string): (r: Option<Params>)
      reads this
      ensures r.None? <==> drv !in {"PostgreSQL", "MSSQLSpatial", "FileGDB", "SQLite", "WFS"}
      ensures r.Some? && userconfig.None? ==> r.value == contents(mainconfig, SectionOf(drv).value)
      ensures r.Some? && userconfig.Some? ==>
        var ul, ml := contents(userconfig.value, SectionOf(drv).value), contents(mainconfig, SectionOf(drv).value);
        && |r.value| == Max(|ul|, |ml|)
        && forall i :: 0 <= i < |r.value| ==> r.value[i] == (if At(ul, i).Some? then At(ul, i) else At(ml, i))
    {
      match SectionOf(drv)
      case None => None
      case Some(s) =>
        var ml := contents(mainconfig, s);
        var ul := if userconfig.Some? then contents(userconfig.value, s) else [];
        MergeWithoutUser(ml);
        Some(Merge(ul, ml))
    }
  }
}
