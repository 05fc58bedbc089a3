/**
 * ParseDiskSpec of mantle/util/common.go: a disk specification `<size>G[:<opt1>,<opt2>,...]`,
 * for example `5G:channel=nvme`, becomes a size in GiB and a map of options.
 */
module DiskSpec {
  import opened Wrappers
  import opened GoStrings

  /** The errors ParseDiskSpec returns, one constructor per `return ..., err` of the source. */
  datatype SpecError =
    | NoSize(spec: string)                    // "no size provided in '%s'"
    | InvalidSizeOpt(spec: string)            // "invalid size opt %s"
    | InvalidDiskSpec(spec: string)           // "invalid disk spec %s"
    | BadSize(digits: string, cause: NumError) // "failed to convert %q to int64: %w"
    | EmptyOption(spec: string)               // "invalid empty option found in spec %q"

  /** A parsed specification: the size (0 when none was given) and the option map. */
  datatype DiskSpec = DiskSpec(size: int, options: map<string, string>)

  /** The key an option sets: the text before its first `=`, or the whole option. */
  function OptionKey(opt: string): string {
    SplitFirst(opt, '=')[0]
  }

  /** The value an option sets: the text after its first `=`, or "" for a bare key. */
  function OptionValue(opt: string): string {
    var kv := SplitFirst(opt, '=');
    if |kv| == 1 then "" else kv[1]
  }

  /** The map that results from applying `opts` left to right. */
  function OptionMap(opts: seq<string>): map<string, string>
    decreases |opts|
  {
    if opts == [] then map[]
    else
      var last := opts[|opts| - 1];
      OptionMap(opts[..|opts| - 1])[OptionKey(last) := OptionValue(last)]
  }

  /** What ParseDiskSpec(spec, allowNoSize) returns: the size part is checked first, then the
    * number of `:`-separated parts, then the options, then the number before the `G`. */
  function Parse(spec: string, allowNoSize: bool): Result<DiskSpec, SpecError> {
    var split := Split(spec, ':');
    if split[0] == "" && !allowNoSize then Err(NoSize(spec))
    else if split[0] != "" && !EndsWith(split[0], 'G') then Err(InvalidSizeOpt(spec))
    else if |split| > 2 then Err(InvalidDiskSpec(spec))
    else
      var options := if |split| == 2 then OptionMap(Split(split[1], ',')) else map[];
      if split[0] == "" then Ok(DiskSpec(0, options))
      else
        var digits := TrimSuffix(split[0], 'G');
        match ParseInt32(digits)
        case Err(e) => Err(BadSize(digits, e))
        case Ok(n) => Ok(DiskSpec(n, options))
  }

  /** ParseDiskSpec: fills the option map in a loop over the comma-separated options. Go's
    * `len(kvsplit) == 0` branch is absent because strings.SplitN never returns an empty slice
    * (SplitFirst's contract). */
  method ParseDiskSpec(spec: string, allowNoSize: bool) returns (r: Result<DiskSpec, SpecError>)
    ensures r == Parse(spec, allowNoSize)
  {
    var diskmap: map<string, string> := map[];
    var split := Split(spec, ':');
    if split[0] == "" {
      if !allowNoSize {
        return Err(NoSize(spec));
      }
    } else if !EndsWith(split[0], 'G') {
      return Err(InvalidSizeOpt(spec));
    }
    var disksize: string;
    if |split| == 1 {
      disksize := split[0];
    } else if |split| == 2 {
      disksize := split[0];
      diskmap := FillOptions(Split(split[1], ','));
    } else {
      return Err(InvalidDiskSpec(spec));
    }
    var size := 0;
    if disksize != "" {
      disksize := TrimSuffix(disksize, 'G');
      var parsed := ParseInt32(disksize);
      if parsed.Err? {
        return Err(BadSize(disksize, parsed.error));
      }
      size := parsed.value;
    }
    return Ok(DiskSpec(size, diskmap));
  }

  /** The loop of ParseDiskSpec that fills the option map, one `key=value` option at a time. */
  method FillOptions(opts: seq<string>) returns (diskmap: map<string, string>)
    ensures diskmap == OptionMap(opts)
  {
    diskmap := map[];
    var i := 0;
    while i < |opts|
      invariant 0 <= i <= |opts|
      invariant diskmap == OptionMap(opts[..i])
    {
      var opt := opts[i];
      var kvsplit := SplitFirst(opt, '=');
      if |kvsplit| == 1 {
        diskmap := diskmap[opt := ""];
      } else {
        diskmap := diskmap[kvsplit[0] := kvsplit[1]];
      }
      assert opts[..i + 1][..i] == opts[..i];
      i := i + 1;
    }
    assert opts[..i] == opts;
  }

  // ---------------------------------------------------------------- what Parse promises

  /** Every successful parse gives a size in the 32-bit range, and 0 only when the size
    * may be omitted or was written as zero. */
  lemma ParseSizeInRange(spec: string, allowNoSize: bool)
    requires Parse(spec, allowNoSize).Ok?
    ensures var size := Parse(spec, allowNoSize).value.size;
      -(Int32Cutoff as int) <= size < Int32Cutoff
  {
  }

  /** The error conditions, each in terms of the input alone. */
  lemma ParseErrors(spec: string, allowNoSize: bool)
    ensures var split := Split(spec, ':');
      && (Parse(spec, allowNoSize) == Err(NoSize(spec)) <==> split[0] == "" && !allowNoSize)
      && (Parse(spec, allowNoSize) == Err(InvalidSizeOpt(spec)) <==> split[0] != "" && !EndsWith(split[0], 'G'))
      && (Parse(spec, allowNoSize) == Err(InvalidDiskSpec(spec)) <==>
            (split[0] != "" || allowNoSize) && (split[0] == "" || EndsWith(split[0], 'G')) && |split| > 2)
      && (Parse(spec, allowNoSize).Err? ==> !Parse(spec, allowNoSize).error.EmptyOption?)
  {
  }

  /** More than one `:` is rejected: such a spec never parses. */
  lemma {:induction false} TwoColonsRejected(a: string, b: string, c: string, allowNoSize: bool)
    requires ':' !in a
    ensures Parse(a + ":" + b + ":" + c, allowNoSize).Err?
  {
    SplitAppend(a, b + ":" + c, ':');
    assert a + ":" + b + ":" + c == a + [':'] + (b + ":" + c);
    var rest := Split(b + ":" + c, ':');
    SplitCountsSeparators(b + ":" + c, ':');
  }

  /** A string that contains the separator splits into at least two pieces. */
  lemma {:induction false} SplitCountsSeparators(s: string, c: char)
    requires c in s
    ensures |Split(s, c)| >= 2
    decreases |s|
  {
    if s[0] != c {
      SplitCountsSeparators(s[1..], c);
    }
  }

  /** An empty size part is accepted only when allowed, and then gives size 0. */
  lemma EmptySizeIsZero(opts: string)
    requires ':' !in opts
    ensures Parse(":" + opts, false) == Err(NoSize(":" + opts))
    ensures Parse(":" + opts, true).Ok? && Parse(":" + opts, true).value.size == 0
  {
    SplitAppend("", opts, ':');
    assert "" + [':'] + opts == ":" + opts;
    SplitFree(opts, ':');
  }

  /** A spec without `:` has no options. */
  lemma {:induction false} NoColonNoOptions(spec: string, allowNoSize: bool)
    requires ':' !in spec && Parse(spec, allowNoSize).Ok?
    ensures Parse(spec, allowNoSize).value.options == map[]
  {
    SplitFree(spec, ':');
  }

  /** A size written as `G` alone does not parse. */
  lemma BareGRejected()
    ensures Parse("G", false) == Err(BadSize("", Syntax))
  {
    SplitFree("G", ':');
  }

  /** A spec `<head>:<opts>` with a well-formed size part: its options are those of `opts`. */
  lemma {:induction false} ParseWithOptions(head: string, opts: string, allowNoSize: bool)
    requires ':' !in head && ':' !in opts && EndsWith(head, 'G')
    ensures Parse(head + ":" + opts, allowNoSize) ==
      match ParseInt32(TrimSuffix(head, 'G'))
      case Err(e) => Err(BadSize(TrimSuffix(head, 'G'), e))
      case Ok(n) => Ok(DiskSpec(n, OptionMap(Split(opts, ','))))
  {
    assert head + ":" + opts == head + [':'] + opts;
    SplitAppend(head, opts, ':');
    SplitFree(opts, ':');
  }

  lemma FiveG()
    ensures ParseInt32(TrimSuffix("5G", 'G')) == Ok(5)
  {
    assert TrimSuffix("5G", 'G') == NatToString(5);
    ParseInt32OfNatToString(5);
  }

  /** Empty options are not rejected: `5G:` sets the key "" to "". */
  lemma TrailingColonSetsEmptyKey()
    ensures Parse("5G:", false) == Ok(DiskSpec(5, map["" := ""]))
  {
    ParseWithOptions("5G", "", false);
    assert "5G" + ":" + "" == "5G:";
    FiveG();
    assert Split("", ',') == [""];
    assert OptionKey("") == "" && OptionValue("") == "";
    assert OptionMap([""]) == OptionMap([])["" := ""];
  }

  /** `a,,b` splits into three options, the middle one empty. */
  lemma SplitDoubleComma()
    ensures Split("a,,b", ',') == ["a", "", "b"]
  {
    SplitAppend("a", ",b", ',');
    assert "a" + [','] + ",b" == "a,,b";
    SplitAppend("", "b", ',');
    assert "" + [','] + "b" == ",b";
    SplitFree("b", ',');
  }

  /** Empty options are not rejected: in `5G:a,,b` the middle option sets the key "". */
  lemma DoubleCommaSetsEmptyKey()
    ensures var r := Parse("5G:a,,b", false); r.Ok? && "" in r.value.options && r.value.options[""] == ""
  {
    ParseWithOptions("5G", "a,,b", false);
    assert "5G" + ":" + "a,,b" == "5G:a,,b";
    FiveG();
    SplitDoubleComma();
    var opts := ["a", "", "b"];
    OptionMapLastWins(opts, "");
    assert OptionKey(opts[1]) == "" && OptionValue(opts[1]) == "";
    SplitFree("b", '=');
    assert OptionKey(opts[2]) == "b";
  }

  /** The map holds exactly the keys the options name, each with the value of the LAST option
    * that names it: a later duplicate overwrites an earlier one. */
  lemma OptionMapLastWins(opts: seq<string>, k: string)
    ensures k in OptionMap(opts) <==> exists i :: 0 <= i < |opts| && OptionKey(opts[i]) == k
    ensures forall i :: 0 <= i < |opts| && OptionKey(opts[i]) == k
              && (forall j :: i < j < |opts| ==> OptionKey(opts[j]) != k)
              ==> k in OptionMap(opts) && OptionMap(opts)[k] == OptionValue(opts[i])
  {
    OptionMapKeys(opts, k);
    forall i | 0 <= i < |opts| && OptionKey(opts[i]) == k
              && (forall j :: i < j < |opts| ==> OptionKey(opts[j]) != k)
      ensures k in OptionMap(opts) && OptionMap(opts)[k] == OptionValue(opts[i])
    {
      OptionMapLastValue(opts, k, i);
    }
  }

  /** A key is in the map exactly when some option names it. */
  lemma {:induction false} OptionMapKeys(opts: seq<string>, k: string)
    ensures k in OptionMap(opts) <==> exists i :: 0 <= i < |opts| && OptionKey(opts[i]) == k
    decreases |opts|
  {
    if opts != [] {
      var init := opts[..|opts| - 1];
      OptionMapKeys(init, k);
      if k in OptionMap(init) {
        var i :| 0 <= i < |init| && OptionKey(init[i]) == k;
        assert OptionKey(opts[i]) == k;
      }
      if i :| 0 <= i < |opts| - 1 && OptionKey(opts[i]) == k {
        assert OptionKey(init[i]) == k;
      }
    }
  }

  /** The value of option `i` survives when no later option names the same key. */
  lemma {:induction false} OptionMapLastValue(opts: seq<string>, k: string, i: int)
    requires 0 <= i < |opts| && OptionKey(opts[i]) == k
    requires forall j :: i < j < |opts| ==> OptionKey(opts[j]) != k
    ensures k in OptionMap(opts) && OptionMap(opts)[k] == OptionValue(opts[i])
    decreases |opts|
  {
    var init := opts[..|opts| - 1];
    if i < |opts| - 1 {
      assert OptionKey(opts[|opts| - 1]) != k;
      OptionMapLastValue(init, k, i);
    }
  }

  // ---------------------------------------------------------------- the round trip

  /** One option as written in a specification. */
  datatype Opt = Opt(key: string, value: string)

  function RenderOpt(o: Opt): string {
    o.key + "=" + o.value
  }

  function RenderOpts(opts: seq<Opt>): (r: seq<string>)
    ensures |r| == |opts|
    ensures forall i :: 0 <= i < |opts| ==> r[i] == RenderOpt(opts[i])
  {
    seq(|opts|, i requires 0 <= i < |opts| => RenderOpt(opts[i]))
  }

  /** The specification `<size>G[:k1=v1,k2=v2,...]` for a size and a list of options. */
  function Format(size: nat, opts: seq<Opt>): string {
    NatToString(size) + "G" + if opts == [] then "" else ":" + Join(RenderOpts(opts), ",")
  }

  /** The map the options denote, a later key overwriting an earlier one. */
  function OptsMap(opts: seq<Opt>): map<string, string>
    decreases |opts|
  {
    if opts == [] then map[]
    else
      var last := opts[|opts| - 1];
      OptsMap(opts[..|opts| - 1])[last.key := last.value]
  }

  /** Keys may not contain `:`, `,` or `=`; values may not contain `:` or `,`. */
  predicate Writable(o: Opt) {
    ':' !in o.key && ',' !in o.key && '=' !in o.key && ':' !in o.value && ',' !in o.value
  }

  /** In `a + [c] + b` with `a` free of `c`, the first `c` stands right after `a`. */
  lemma {:induction false} FirstIndexAfterPrefix(a: string, b: string, c: char)
    requires c !in a
    ensures c in a + [c] + b && FirstIndex(a + [c] + b, c) == |a|
    decreases |a|
  {
    var s := a + [c] + b;
    assert s[|a|] == c;
    if a != [] {
      assert s[1..] == a[1..] + [c] + b;
      FirstIndexAfterPrefix(a[1..], b, c);
    }
  }

  /** `a + [c] + b` determines `a` and `b` when neither `a` nor `a'` contains `c`. */
  lemma FirstSeparatorUnique(a: string, b: string, a': string, b': string, c: char)
    requires c !in a && c !in a' && a + [c] + b == a' + [c] + b'
    ensures a == a' && b == b'
  {
    var s := a + [c] + b;
    FirstIndexAfterPrefix(a, b, c);
    FirstIndexAfterPrefix(a', b', c);
    assert a == s[..|a|] && a' == s[..|a'|];
    assert b == s[|a| + 1..] && b' == s[|a'| + 1..];
  }

  lemma RenderedOptionParses(o: Opt)
    requires Writable(o)
    ensures OptionKey(RenderOpt(o)) == o.key && OptionValue(RenderOpt(o)) == o.value
  {
    var s := RenderOpt(o);
    assert s == o.key + ['='] + o.value;
    var kv := SplitFirst(s, '=');
    assert |kv| == 2;
    FirstSeparatorUnique(o.key, o.value, kv[0], kv[1], '=');
  }

  lemma {:induction false} OptionMapOfRendered(opts: seq<Opt>)
    requires forall i :: 0 <= i < |opts| ==> Writable(opts[i])
    ensures OptionMap(RenderOpts(opts)) == OptsMap(opts)
    decreases |opts|
  {
    if opts != [] {
      var last := opts[|opts| - 1];
      var init := opts[..|opts| - 1];
      var rendered := RenderOpts(opts);
      OptionMapOfRendered(init);
      assert rendered[..|opts| - 1] == RenderOpts(init);
      RenderedOptionParses(last);
      assert rendered[|rendered| - 1] == RenderOpt(last);
    }
  }

  /** Parsing a formatted specification gives back its size and its options. */
  lemma {:induction false} ParseFormat(size: nat, opts: seq<Opt>, allowNoSize: bool)
    requires size < Int32Cutoff
    requires forall i :: 0 <= i < |opts| ==> Writable(opts[i])
    ensures Parse(Format(size, opts), allowNoSize) == Ok(DiskSpec(size, OptsMap(opts)))
  {
    var head := NatToString(size) + "G";
    assert ':' !in head by {
      assert forall i :: 0 <= i < |head| - 1 ==> IsDigit(head[i]);
    }
    assert TrimSuffix(head, 'G') == NatToString(size);
    ParseInt32OfNatToString(size);
    if opts == [] {
      SplitFree(head, ':');
      assert Format(size, opts) == head;
    } else {
      var rendered := RenderOpts(opts);
      var joined := Join(rendered, ",");
      RenderedFree(opts);
      JoinFree(rendered, ',', ':');
      assert Format(size, opts) == head + ":" + joined;
      ParseWithOptions(head, joined, allowNoSize);
      SplitJoin(rendered, ',');
      OptionMapOfRendered(opts);
    }
  }

  lemma RenderedFree(opts: seq<Opt>)
    requires forall i :: 0 <= i < |opts| ==> Writable(opts[i])
    ensures Free(RenderOpts(opts), ',') && Free(RenderOpts(opts), ':')
  {
    var rendered := RenderOpts(opts);
    forall i | 0 <= i < |rendered| ensures ',' !in rendered[i] && ':' !in rendered[i] {
      assert rendered[i] == opts[i].key + "=" + opts[i].value;
    }
  }

  /** A join of pieces that all avoid a character `d` (other than the separator) avoids it too. */
  lemma {:induction false} JoinFree(xs: seq<string>, sep: char, d: char)
    requires sep != d && Free(xs, d)
    ensures d !in Join(xs, [sep])
    decreases |xs|
  {
    if |xs| > 1 {
      JoinFree(xs[1..], sep, d);
    }
  }

  // ---------------------------------------------------------------- the stricter parser

  /** ParseDiskSpec as its `invalid empty option` error evidently intends: an empty option
    * (as in `5G:` or `a,,b`) is rejected instead of setting the key "". The check sits where
    * the source's option loop does: after the size-part checks, before the size conversion. */
  function ParseStrict(spec: string, allowNoSize: bool): (r: Result<DiskSpec, SpecError>)
  {
    var split := Split(spec, ':');
    if |split| == 2 && SizePartAccepted(split[0], allowNoSize) && "" in Split(split[1], ',') then
      Err(EmptyOption(spec))
    else Parse(spec, allowNoSize)
  }

  /** The size part passes the checks that come before the option loop. */
  predicate SizePartAccepted(size: string, allowNoSize: bool) {
    if size == "" then allowNoSize else EndsWith(size, 'G')
  }

  /** The stricter parser never produces an option from an empty option text, and agrees with
    * ParseDiskSpec on every spec without one. */
  lemma StrictRejectsEmptyOptions(spec: string, allowNoSize: bool)
    ensures var split := Split(spec, ':');
      ParseStrict(spec, allowNoSize).Ok? && |split| == 2 ==> forall o :: o in Split(split[1], ',') ==> o != ""
    ensures var split := Split(spec, ':');
      (|split| != 2 || "" !in Split(split[1], ',')) ==> ParseStrict(spec, allowNoSize) == Parse(spec, allowNoSize)
  {
  }

  lemma StrictRejectsTrailingColon()
    ensures ParseStrict("5G:", false) == Err(EmptyOption("5G:"))
  {
    TrailingColonSetsEmptyKey();
    SplitAppend("5G", "", ':');
    assert "5G" + [':'] + "" == "5G:";
    assert Split("", ',') == [""];
  }

  /** An empty option is reported before a bad number is: `xG:` has both. */
  lemma StrictChecksOptionsBeforeSize()
    ensures ParseStrict("xG:", false) == Err(EmptyOption("xG:"))
  {
    SplitAppend("xG", "", ':');
    SplitFree("xG", ':');
    assert "xG" + [':'] + "" == "xG:";
    assert Split("", ',') == [""];
  }
}
