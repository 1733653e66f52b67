/**
 * The build-script driver: scan a Rust file for `include_cxx!` macros, turn
 * each into a generated C++ file in a temporary directory, and collect the
 * include directories and files into a C++ build configuration.
 *
 * Every step that touches the outside world (creating the temporary
 * directory, reading and parsing the file, parsing a macro, generating C++,
 * creating and writing a file) is an oracle supplied in an `Env`.
 */
module GenBuild {
  import opened Wrappers

  // ---------------------------------------------------------------------
  // Values exchanged with the outside world.

  /** A filesystem path as its sequence of components. */
  type Path = seq<string>

  type Bytes = seq<bv8>

  /** Opaque failure values of the I/O layer and of the Rust parser. */
  datatype IoError = IoError(description: string)
  datatype SynError = SynError(message: string)

  /** A macro invocation: its path (`include_cxx` is the one-segment path) and its body. */
  datatype Macro = Macro(path: seq<string>, tokens: string)

  /** A top-level item of a parsed Rust file; only macros matter here. */
  datatype Item = MacroItem(mac: Macro) | OtherItem

  /** A parsed `include_cxx!` invocation; the engine reports its include directory. */
  datatype IncludeCpp = IncludeCpp(includeDir: Path, config: string)

  /** The outcome of every external step, as a function of that step's input. */
  datatype Env = Env(
    tempdir: Result<Path, IoError>,
    readToString: Path -> Result<string, IoError>,
    parseFile: string -> Result<seq<Item>, SynError>,
    newFromSyn: Macro -> Result<IncludeCpp, SynError>,
    generateHAndCxx: IncludeCpp -> Result<(Bytes, Bytes), string>,
    createFile: Path -> Result<(), IoError>,
    writeAll: (Path, Bytes) -> Result<(), IoError>)

  /** Failures of `Builder::new`. */
  datatype Error =
    | FileReadError(io: IoError)
    | Syntax(syn: SynError)
    | InvalidCxx(message: string)
    | TempDirCreationFailed(io: IoError)
    | FileWriteFail(io: IoError)
    | NoIncludeCxxMacrosFound
    | MacroParseFail(syn: SynError)

  // ---------------------------------------------------------------------
  // File names and paths.

  /** `dir.join(name)` for a name without separators. */
  function Join(dir: Path, name: string): (p: Path)
    ensures |p| == |dir| + 1 && p[..|dir|] == dir && p[|dir|] == name
  {
    dir + [name]
  }

  /** The decimal digit for d. */
  function DigitChar(d: nat): (c: char)
    requires d < 10
    ensures '0' <= c <= '9' && (c == '0' <==> d == 0)
  {
    ('0' as int + d) as char
  }

  /**
   * Decimal rendering of a natural number, as `format!("{}", n)` writes it:
   * digits only, a single digit exactly below ten, and no leading zero.
   */
  function NatToString(n: nat): (s: string)
    ensures |s| >= 1
    ensures forall i :: 0 <= i < |s| ==> '0' <= s[i] <= '9'
    ensures |s| == 1 <==> n < 10
    ensures s[0] == '0' ==> n == 0
    decreases n
  {
    if n < 10 then [DigitChar(n)] else NatToString(n / 10) + [DigitChar(n % 10)]
  }

  /** The number a string of decimal digits stands for, most significant digit first. */
  function DecimalValue(s: string): nat
    requires forall i :: 0 <= i < |s| ==> '0' <= s[i] <= '9'
  {
    if s == [] then 0
    else DecimalValue(s[..|s| - 1]) * 10 + (s[|s| - 1] as int - '0' as int)
  }

  lemma DigitCharValue(d: nat)
    requires d < 10
    ensures DigitChar(d) as int - '0' as int == d
  {
  }

  /** The rendering of n reads back as n: it is the decimal notation of n. */
  lemma {:induction false} NatToStringValue(n: nat)
    ensures DecimalValue(NatToString(n)) == n
    decreases n
  {
    var s := NatToString(n);
    if n < 10 {
      DigitCharValue(n);
      assert s[..0] == [];
    } else {
      NatToStringValue(n / 10);
      DigitCharValue(n % 10);
      assert s[..|s| - 1] == NatToString(n / 10);
    }
  }

  /** The name of the file generated for the `counter`-th macro: `gen{counter}.cxx`. */
  function GenName(counter: nat): string
  {
    "gen" + NatToString(counter) + ".cxx"
  }

  /** The file name is `gen`, the counter in decimal, then `.cxx`. */
  lemma GenNameShape(counter: nat)
    ensures var name := GenName(counter);
      |name| == |NatToString(counter)| + 7 &&
      name[..3] == "gen" && name[|name| - 4..] == ".cxx" &&
      name[3..|name| - 4] == NatToString(counter)
  {
  }

  lemma DigitCharInjective(a: nat, b: nat)
    requires a < 10 && b < 10 && DigitChar(a) == DigitChar(b)
    ensures a == b
  {
  }

  /** Different numbers have different decimal renderings. */
  lemma {:induction false} NatToStringInjective(m: nat, n: nat)
    requires NatToString(m) == NatToString(n)
    ensures m == n
    decreases m
  {
    var s := NatToString(m);
    if m < 10 && n < 10 {
      DigitCharInjective(m, n);
    } else if m >= 10 && n >= 10 {
      var k := |s| - 1;
      assert s[..k] == NatToString(m / 10) == NatToString(n / 10);
      NatToStringInjective(m / 10, n / 10);
      DigitCharInjective(m % 10, n % 10);
    }
    // One below ten and one not: renderings of lengths 1 and at least 2.
  }

  /** Distinct counters give distinct generated file names. */
  lemma GenNameInjective(i: nat, j: nat)
    requires GenName(i) == GenName(j)
    ensures i == j
  {
    var s := GenName(i);
    assert s[3..|s| - 4] == NatToString(i);
    assert GenName(j)[3..|s| - 4] == NatToString(j);
    NatToStringInjective(i, j);
  }

  /**
   * `write_to_file`: create `tdir.join(filename)`, write `content` into it
   * and return that path. Creation is attempted first.
   */
  function WriteToFile(env: Env, tdir: Path, filename: string, content: Bytes): (r: Result<Path, IoError>)
    ensures r.Ok? <==> env.createFile(Join(tdir, filename)).Ok? && env.writeAll(Join(tdir, filename), content).Ok?
    ensures r.Ok? ==> r.value == Join(tdir, filename)
    ensures env.createFile(Join(tdir, filename)).Err? ==> r == Err(env.createFile(Join(tdir, filename)).error)
    ensures env.createFile(Join(tdir, filename)).Ok? && env.writeAll(Join(tdir, filename), content).Err? ==>
              r == Err(env.writeAll(Join(tdir, filename), content).error)
  {
    var path := Join(tdir, filename);
    match env.createFile(path)
    case Err(e) => Err(e)
    case Ok(_) =>
      match env.writeAll(path, content)
      case Err(e) => Err(e)
      case Ok(_) => Ok(path)
  }

  // ---------------------------------------------------------------------
  // The specification of the scan.

  predicate IsIncludeCxx(item: Item)
  {
    item.MacroItem? && item.mac.path == ["include_cxx"]
  }

  /** What one item contributes to the scan: its macro if it is `include_cxx`, else nothing. */
  function Selected(item: Item): seq<Macro>
  {
    if IsIncludeCxx(item) then [item.mac] else []
  }

  /** The `include_cxx` macros among `items`, in source order. */
  function Matching(items: seq<Item>): (macs: seq<Macro>)
    ensures |macs| <= |items|
  {
    if items == [] then [] else Selected(items[0]) + Matching(items[1..])
  }

  /**
   * Every matched macro comes from an `include_cxx` item of the file, and
   * nothing matches exactly when the file has no `include_cxx` item.
   */
  lemma {:induction false} MatchingExactly(items: seq<Item>)
    ensures forall m :: m in Matching(items) ==> MacroItem(m) in items && m.path == ["include_cxx"]
    ensures Matching(items) == [] <==> forall x :: x in items ==> !IsIncludeCxx(x)
  {
    if items != [] {
      MatchingExactly(items[1..]);
      assert forall x :: x in items[1..] ==> x in items;
      assert forall x :: x in items ==> x == items[0] || x in items[1..];
    }
  }

  /** What the build has gathered: include directories and generated files, in order. */
  datatype Plan = Plan(includes: seq<Path>, files: seq<Path>)

  /**
   * Processing the macro with index `k`: parse it, generate its C++, write
   * that C++ to `gen{k}.cxx`. Succeeds with its include directory and the
   * written path.
   */
  function Step(env: Env, tdir: Path, mac: Macro, k: nat): (r: Result<(Path, Path), Error>)
    ensures r.Err? ==> r.error.MacroParseFail? || r.error.InvalidCxx? || r.error.FileWriteFail?
  {
    match env.newFromSyn(mac)
    case Err(e) => Err(MacroParseFail(e))
    case Ok(includeCpp) =>
      match env.generateHAndCxx(includeCpp)
      case Err(msg) => Err(InvalidCxx(msg))
      case Ok(hAndCxx) =>
        match WriteToFile(env, tdir, GenName(k), hAndCxx.1)
        case Err(e) => Err(FileWriteFail(e))
        case Ok(path) => Ok((includeCpp.includeDir, path))
  }

  /**
   * How one macro's step turns out: a macro-parse failure, else a generation
   * failure, else a write failure, each carrying its cause; otherwise the
   * macro's include directory and `gen{k}.cxx` in the temporary directory.
   */
  lemma StepCases(env: Env, tdir: Path, mac: Macro, k: nat)
    ensures var r := Step(env, tdir, mac, k);
      r.Ok? ==> env.newFromSyn(mac).Ok? && r.value == (env.newFromSyn(mac).value.includeDir, Join(tdir, GenName(k)))
    ensures env.newFromSyn(mac).Err? ==> Step(env, tdir, mac, k) == Err(MacroParseFail(env.newFromSyn(mac).error))
    ensures env.newFromSyn(mac).Ok? ==>
      var generated := env.generateHAndCxx(env.newFromSyn(mac).value);
      generated.Err? ==> Step(env, tdir, mac, k) == Err(InvalidCxx(generated.error))
    ensures env.newFromSyn(mac).Ok? && env.generateHAndCxx(env.newFromSyn(mac).value).Ok? ==>
      var written := WriteToFile(env, tdir, GenName(k), env.generateHAndCxx(env.newFromSyn(mac).value).value.1);
      (written.Err? ==> Step(env, tdir, mac, k) == Err(FileWriteFail(written.error))) &&
      (written.Ok? ==> Step(env, tdir, mac, k).Ok?)
  {
  }

  /** Processing `macs` in order, stopping at the first failure. */
  function ProcessAll(env: Env, tdir: Path, macs: seq<Macro>): (r: Result<Plan, Error>)
    ensures r.Ok? ==> |r.value.includes| == |macs| && |r.value.files| == |macs|
    ensures r.Err? ==> r.error.MacroParseFail? || r.error.InvalidCxx? || r.error.FileWriteFail?
    decreases |macs|
  {
    if macs == [] then Ok(Plan([], []))
    else
      var k := |macs| - 1;
      match ProcessAll(env, tdir, macs[..k])
      case Err(e) => Err(e)
      case Ok(plan) =>
        match Step(env, tdir, macs[k], k)
        case Err(e) => Err(e)
        case Ok(unit) => Ok(Plan(plan.includes + [unit.0], plan.files + [unit.1]))
  }

  /** The loop over a parsed file's items and the final "no macro" check. */
  function Scan(env: Env, tdir: Path, items: seq<Item>): (r: Result<Plan, Error>)
    ensures r.Ok? ==> |r.value.files| == |Matching(items)| > 0 && |r.value.includes| == |r.value.files|
    ensures r.Err? ==>
              r.error.NoIncludeCxxMacrosFound? || r.error.MacroParseFail? ||
              r.error.InvalidCxx? || r.error.FileWriteFail?
  {
    var macs := Matching(items);
    match ProcessAll(env, tdir, macs)
    case Err(e) => Err(e)
    case Ok(plan) => if |macs| == 0 then Err(NoIncludeCxxMacrosFound) else Ok(plan)
  }

  /** The whole of `Builder::new` on `rsFile`: its error, or the gathered build. */
  function Expected(rsFile: Path, env: Env): (r: Result<Plan, Error>)
    ensures r.Ok? ==> env.tempdir.Ok? && |r.value.files| > 0 && |r.value.includes| == |r.value.files|
    ensures r.Err? ==> (r.error.TempDirCreationFailed? <==> env.tempdir.Err?)
  {
    match env.tempdir
    case Err(e) => Err(TempDirCreationFailed(e))
    case Ok(tdir) =>
      match env.readToString(rsFile)
      case Err(e) => Err(FileReadError(e))
      case Ok(text) =>
        match env.parseFile(text)
        case Err(e) => Err(Syntax(e))
        case Ok(items) => Scan(env, tdir, items)
  }

  // ---------------------------------------------------------------------
  // Properties of the specification.

  /** Matching distributes over concatenation: items are filtered independently. */
  lemma {:induction false} MatchingConcat(a: seq<Item>, b: seq<Item>)
    ensures Matching(a + b) == Matching(a) + Matching(b)
  {
    if a == [] {
      assert a + b == b;
    } else {
      assert (a + b)[0] == a[0];
      assert (a + b)[1..] == a[1..] + b;
      MatchingConcat(a[1..], b);
      calc {
        Matching(a + b);
        Selected(a[0]) + Matching(a[1..] + b);
        Selected(a[0]) + (Matching(a[1..]) + Matching(b));
        (Selected(a[0]) + Matching(a[1..])) + Matching(b);
      }
    }
  }

  /** Extending the items by one extends the matches by what that item contributes. */
  lemma MatchingSnoc(items: seq<Item>, i: nat)
    requires i < |items|
    ensures Matching(items[..i + 1]) == Matching(items[..i]) + Selected(items[i])
  {
    assert items[..i + 1] == items[..i] + [items[i]];
    MatchingConcat(items[..i], [items[i]]);
    assert [items[i]][1..] == [];
  }

  /** Items that are not `include_cxx` macros are skipped: they add no macro. */
  lemma MatchingSkipsOthers(a: seq<Item>, x: Item, b: seq<Item>)
    requires !IsIncludeCxx(x)
    ensures Matching(a + [x] + b) == Matching(a + b)
  {
    MatchingConcat(a + [x], b);
    MatchingConcat(a, [x]);
    MatchingConcat(a, b);
    assert Matching([x]) == [];
  }

  /** Items that are not `include_cxx` macros do not change the outcome of the scan. */
  lemma ScanSkipsOthers(env: Env, tdir: Path, a: seq<Item>, x: Item, b: seq<Item>)
    requires !IsIncludeCxx(x)
    ensures Scan(env, tdir, a + [x] + b) == Scan(env, tdir, a + b)
  {
    MatchingSkipsOthers(a, x, b);
  }

  /** Processing succeeds exactly when every macro's step succeeds. */
  lemma {:induction false} ProcessAllOkIff(env: Env, tdir: Path, macs: seq<Macro>)
    ensures ProcessAll(env, tdir, macs).Ok?
        <==> forall j :: 0 <= j < |macs| ==> Step(env, tdir, macs[j], j).Ok?
    decreases |macs|
  {
    if macs != [] {
      var k := |macs| - 1;
      ProcessAllOkIff(env, tdir, macs[..k]);
      assert forall j :: 0 <= j < k ==> macs[..k][j] == macs[j];
    }
  }

  /**
   * On success there is one include directory and one file per macro, in
   * source order, the k-th file being `gen{k}.cxx` in the temporary directory.
   */
  lemma {:induction false} ProcessAllOk(env: Env, tdir: Path, macs: seq<Macro>)
    requires ProcessAll(env, tdir, macs).Ok?
    ensures var plan := ProcessAll(env, tdir, macs).value;
      |plan.includes| == |macs| && |plan.files| == |macs| &&
      forall k :: 0 <= k < |macs| ==>
        env.newFromSyn(macs[k]).Ok? &&
        plan.includes[k] == env.newFromSyn(macs[k]).value.includeDir &&
        plan.files[k] == Join(tdir, GenName(k))
    decreases |macs|
  {
    if macs != [] {
      var k := |macs| - 1;
      ProcessAllOk(env, tdir, macs[..k]);
      assert forall j :: 0 <= j < k ==> macs[..k][j] == macs[j];
    }
  }

  /** Once processing has failed, further macros do not change the outcome. */
  lemma {:induction false} ProcessAllFailFast(env: Env, tdir: Path, a: seq<Macro>, b: seq<Macro>)
    requires ProcessAll(env, tdir, a).Err?
    ensures ProcessAll(env, tdir, a + b) == ProcessAll(env, tdir, a)
    decreases |b|
  {
    if b == [] {
      assert a + b == a;
    } else {
      var k := |b| - 1;
      ProcessAllFailFast(env, tdir, a, b[..k]);
      assert (a + b)[..|a + b| - 1] == a + b[..k];
    }
  }

  /**
   * The first failing macro decides the error: if the macros before index k
   * all succeed and macro k fails, processing fails with macro k's error,
   * whatever follows it.
   */
  lemma FirstFailureWins(env: Env, tdir: Path, macs: seq<Macro>, k: nat)
    requires k < |macs|
    requires forall j :: 0 <= j < k ==> Step(env, tdir, macs[j], j).Ok?
    requires Step(env, tdir, macs[k], k).Err?
    ensures ProcessAll(env, tdir, macs) == Err(Step(env, tdir, macs[k], k).error)
  {
    var pre := macs[..k];
    assert ProcessAll(env, tdir, pre).Ok? by {
      ProcessAllOkIff(env, tdir, pre);
      assert forall j :: 0 <= j < k ==> pre[j] == macs[j];
    }
    var upTo := macs[..k + 1];
    assert ProcessAll(env, tdir, upTo) == Err(Step(env, tdir, macs[k], k).error) by {
      assert upTo[..k] == pre && upTo[k] == macs[k];
    }
    ProcessAllFailFast(env, tdir, upTo, macs[k + 1..]);
    assert upTo + macs[k + 1..] == macs;
  }

  /** Macro k is the first whose step fails. */
  predicate FirstFailure(env: Env, tdir: Path, macs: seq<Macro>, k: nat)
  {
    k < |macs| &&
    (forall j :: 0 <= j < k ==> Step(env, tdir, macs[j], j).Ok?) &&
    Step(env, tdir, macs[k], k).Err?
  }

  /** A failure of processing is always the failure of a first failing macro. */
  lemma {:induction false} ProcessAllErr(env: Env, tdir: Path, macs: seq<Macro>)
    requires ProcessAll(env, tdir, macs).Err?
    ensures exists k: nat :: (FirstFailure(env, tdir, macs, k) &&
                              Step(env, tdir, macs[k], k).error == ProcessAll(env, tdir, macs).error)
    decreases |macs|
  {
    var n := |macs| - 1;
    var pre := macs[..n];
    assert forall j :: 0 <= j < n ==> pre[j] == macs[j];
    if ProcessAll(env, tdir, pre).Err? {
      ProcessAllErr(env, tdir, pre);
      var k: nat :| FirstFailure(env, tdir, pre, k) &&
        Step(env, tdir, pre[k], k).error == ProcessAll(env, tdir, pre).error;
      assert FirstFailure(env, tdir, macs, k);
    } else {
      ProcessAllOkIff(env, tdir, pre);
      assert FirstFailure(env, tdir, macs, n);
    }
  }

  /** Appending one macro to a successful prefix runs exactly that macro's step. */
  lemma ProcessAllExtend(env: Env, tdir: Path, macs: seq<Macro>, mac: Macro)
    requires ProcessAll(env, tdir, macs).Ok?
    ensures var plan := ProcessAll(env, tdir, macs).value;
      var step := Step(env, tdir, mac, |macs|);
      ProcessAll(env, tdir, macs + [mac])
        == if step.Err? then Err(step.error)
           else Ok(Plan(plan.includes + [step.value.0], plan.files + [step.value.1]))
  {
    assert (macs + [mac])[..|macs|] == macs;
  }

  /** A scan whose first i items already fail processing fails with that error. */
  lemma ScanFailsEarly(env: Env, tdir: Path, items: seq<Item>, i: nat)
    requires i <= |items|
    requires ProcessAll(env, tdir, Matching(items[..i])).Err?
    ensures Scan(env, tdir, items) == ProcessAll(env, tdir, Matching(items[..i]))
  {
    assert items[..i] + items[i..] == items;
    MatchingConcat(items[..i], items[i..]);
    ProcessAllFailFast(env, tdir, Matching(items[..i]), Matching(items[i..]));
  }

  /**
   * One more item of the scan: an `include_cxx` macro extends the processing
   * by its step, numbered by the macros before it; any other item changes
   * nothing.
   */
  lemma ScanStep(env: Env, tdir: Path, items: seq<Item>, i: nat, k: nat, plan: Plan)
    requires i < |items| && k == |Matching(items[..i])|
    requires ProcessAll(env, tdir, Matching(items[..i])) == Ok(plan)
    ensures !IsIncludeCxx(items[i]) ==>
      |Matching(items[..i + 1])| == k &&
      ProcessAll(env, tdir, Matching(items[..i + 1])) == Ok(plan)
    ensures IsIncludeCxx(items[i]) ==>
      var step := Step(env, tdir, items[i].mac, k);
      |Matching(items[..i + 1])| == k + 1 &&
      ProcessAll(env, tdir, Matching(items[..i + 1]))
        == if step.Err? then Err(step.error)
           else Ok(Plan(plan.includes + [step.value.0], plan.files + [step.value.1]))
  {
    var before := Matching(items[..i]);
    MatchingSnoc(items, i);
    if IsIncludeCxx(items[i]) {
      assert Matching(items[..i + 1]) == before + [items[i].mac];
      ProcessAllExtend(env, tdir, before, items[i].mac);
    } else {
      assert before + Selected(items[i]) == before;
    }
  }
  /**
   * The scan as the loop of `Builder::new` performs it: from item `i` on, with
   * `k` macros seen so far and `plan` gathered from them.
   */
  function ScanFrom(env: Env, tdir: Path, items: seq<Item>, i: nat, k: nat, plan: Plan): Result<Plan, Error>
    requires i <= |items|
    decreases |items| - i
  {
    if i == |items| then
      if k == 0 then Err(NoIncludeCxxMacrosFound) else Ok(plan)
    else if IsIncludeCxx(items[i]) then
      match Step(env, tdir, items[i].mac, k)
      case Err(e) => Err(e)
      case Ok(unit) =>
        ScanFrom(env, tdir, items, i + 1, k + 1, Plan(plan.includes + [unit.0], plan.files + [unit.1]))
    else
      ScanFrom(env, tdir, items, i + 1, k, plan)
  }

  /**
   * Item by item, the loop computes the scan: resumed after any prefix whose
   * macros were processed into `plan`, it yields `Scan` of the whole file.
   */
  lemma ScanFromIsScan(env: Env, tdir: Path, items: seq<Item>, i: nat, plan: Plan)
    requires i <= |items|
    requires ProcessAll(env, tdir, Matching(items[..i])) == Ok(plan)
    ensures ScanFrom(env, tdir, items, i, |Matching(items[..i])|, plan) == Scan(env, tdir, items)
    decreases |items| - i
  {
    var k := |Matching(items[..i])|;
    if i == |items| {
      assert items[..i] == items;
    } else {
      ScanStep(env, tdir, items, i, k, plan);
      if IsIncludeCxx(items[i]) {
        var step := Step(env, tdir, items[i].mac, k);
        if step.Err? {
          ScanFailsEarly(env, tdir, items, i + 1);
        } else {
          ScanFromIsScan(env, tdir, items, i + 1,
            Plan(plan.includes + [step.value.0], plan.files + [step.value.1]));
        }
      } else {
        ScanFromIsScan(env, tdir, items, i + 1, plan);
      }
    }
  }



  /** The scan reports "no macros" exactly when the file holds no `include_cxx` macro. */
  lemma ScanNoMacrosIff(env: Env, tdir: Path, items: seq<Item>)
    ensures Scan(env, tdir, items) == Err(NoIncludeCxxMacrosFound) <==> Matching(items) == []
  {
    var macs := Matching(items);
    if ProcessAll(env, tdir, macs).Err? {
      ProcessAllErr(env, tdir, macs);
    }
  }

  /**
   * A successful scan of a file with N `include_cxx` macros gathers N include
   * directories and the N distinct files gen0.cxx ... gen{N-1}.cxx in the
   * temporary directory, all in source order.
   */
  lemma ScanOk(env: Env, tdir: Path, items: seq<Item>)
    requires Scan(env, tdir, items).Ok?
    ensures var plan := Scan(env, tdir, items).value;
      var macs := Matching(items);
      |macs| > 0 && |plan.includes| == |macs| && |plan.files| == |macs| &&
      (forall k :: 0 <= k < |macs| ==>
        env.newFromSyn(macs[k]).Ok? &&
        plan.includes[k] == env.newFromSyn(macs[k]).value.includeDir &&
        plan.files[k] == Join(tdir, GenName(k))) &&
      (forall a, b :: 0 <= a < b < |macs| ==> plan.files[a] != plan.files[b])
  {
    var macs := Matching(items);
    ProcessAllOk(env, tdir, macs);
    var plan := Scan(env, tdir, items).value;
    forall a, b | 0 <= a < b < |macs|
      ensures plan.files[a] != plan.files[b]
    {
      if plan.files[a] == plan.files[b] {
        assert plan.files[a][|tdir|] == GenName(a);
        assert plan.files[b][|tdir|] == GenName(b);
        GenNameInjective(a, b);
      }
    }
  }

  /**
   * The scan succeeds exactly when the file has at least one `include_cxx`
   * macro and every such macro's step succeeds.
   */
  lemma ScanOkIff(env: Env, tdir: Path, items: seq<Item>)
    ensures Scan(env, tdir, items).Ok?
        <==> Matching(items) != [] &&
             forall j :: 0 <= j < |Matching(items)| ==> Step(env, tdir, Matching(items)[j], j).Ok?
  {
    ProcessAllOkIff(env, tdir, Matching(items));
  }

  /**
   * Failures are checked in a fixed order: temporary directory, then reading,
   * then parsing the file; only then are the items scanned.
   */
  lemma ExpectedPrecedence(rsFile: Path, env: Env)
    ensures env.tempdir.Err? ==> Expected(rsFile, env) == Err(TempDirCreationFailed(env.tempdir.error))
    ensures env.tempdir.Ok? && env.readToString(rsFile).Err? ==>
              Expected(rsFile, env) == Err(FileReadError(env.readToString(rsFile).error))
    ensures (env.tempdir.Ok? && env.readToString(rsFile).Ok? &&
             env.parseFile(env.readToString(rsFile).value).Err?) ==>
              Expected(rsFile, env) == Err(Syntax(env.parseFile(env.readToString(rsFile).value).error))
    ensures (env.tempdir.Ok? && env.readToString(rsFile).Ok? &&
             env.parseFile(env.readToString(rsFile).value).Ok?) ==>
              Expected(rsFile, env)
                == Scan(env, env.tempdir.value, env.parseFile(env.readToString(rsFile).value).value)
  {
  }

  // ---------------------------------------------------------------------
  // The imperative driver.

  /** The C++ build configuration: C++ mode, include directories and source files. */
  class Build {
    var cppMode: bool
    var includes: seq<Path>
    var files: seq<Path>

    /** `cc::Build::new()`. */
    constructor ()
      ensures !cppMode && includes == [] && files == []
    {
      cppMode := false;
      includes := [];
      files := [];
    }

    /** `cpp(on)`: compile as C++ or not. */
    method Cpp(on: bool)
      modifies this
      ensures cppMode == on && includes == old(includes) && files == old(files)
    {
      cppMode := on;
    }

    /** `include(dir)`: append a header search directory. */
    method Include(dir: Path)
      modifies this
      ensures includes == old(includes) + [dir]
      ensures cppMode == old(cppMode) && files == old(files)
    {
      includes := includes + [dir];
    }

    /** `file(path)`: append a source file. */
    method File(path: Path)
      modifies this
      ensures files == old(files) + [path]
      ensures cppMode == old(cppMode) && includes == old(includes)
    {
      files := files + [path];
    }
  }

  /** Owns the build configuration and the temporary directory its files live in. */
  class Builder {
    const build: Build
    const tdir: Path

    constructor (build: Build, tdir: Path)
      ensures this.build == build && this.tdir == tdir
    {
      this.build := build;
      this.tdir := tdir;
    }

    /** `builder()`: hand out the stored build configuration; nothing changes. */
    method FetchBuild() returns (b: Build)
      ensures b == build
    {
      b := build;
    }

    /**
     * The body of `Builder::new`'s loop for one `include_cxx!` macro, the
     * `counter`-th: parse it, add its include directory, generate the C++ and
     * write it to `gen{counter}.cxx`, then add that file. Fails exactly as
     * `Step` does; on success the build gains `Step`'s include directory and
     * file and nothing else.
     */
    static method AddMacro(env: Env, tdir: Path, build: Build, mac: Macro, counter: nat)
      returns (failure: Option<Error>)
      modifies build
      ensures failure.Some? <==> Step(env, tdir, mac, counter).Err?
      ensures failure.Some? ==> failure.value == Step(env, tdir, mac, counter).error
      ensures build.cppMode == old(build.cppMode)
      ensures failure.None? ==>
        build.includes == old(build.includes) + [Step(env, tdir, mac, counter).value.0] &&
        build.files == old(build.files) + [Step(env, tdir, mac, counter).value.1]
    {
      StepCases(env, tdir, mac, counter);
      var parsedMacro := env.newFromSyn(mac);
      if parsedMacro.Err? {
        return Some(MacroParseFail(parsedMacro.error));
      }
      var includeCpp := parsedMacro.value;
      build.Include(includeCpp.includeDir);
      var generated := env.generateHAndCxx(includeCpp);
      if generated.Err? {
        return Some(InvalidCxx(generated.error));
      }
      var cxx := generated.value.1;
      var fname := GenName(counter);
      var genCxxPath := WriteToFile(env, tdir, fname, cxx);
      if genCxxPath.Err? {
        return Some(FileWriteFail(genCxxPath.error));
      }
      build.File(genCxxPath.value);
      return None;
    }

    /**
     * The loop of `Builder::new` over the parsed file's items, numbering the
     * `include_cxx!` macros from 0 and adding each one's include directory and
     * generated file to `build`. Fails exactly as `Scan` does; on success the
     * build holds exactly `Scan`'s include directories and files.
     */
    static method AddAll(env: Env, tdir: Path, build: Build, items: seq<Item>)
      returns (failure: Option<Error>)
      requires build.includes == [] && build.files == []
      modifies build
      ensures failure.Some? <==> Scan(env, tdir, items).Err?
      ensures failure.Some? ==> failure.value == Scan(env, tdir, items).error
      ensures build.cppMode == old(build.cppMode)
      ensures failure.None? ==>
        build.includes == Scan(env, tdir, items).value.includes &&
        build.files == Scan(env, tdir, items).value.files
    {
      ScanFromIsScan(env, tdir, items, 0, Plan([], []));
      var counter: nat := 0;
      var i := 0;
      while i < |items|
        invariant 0 <= i <= |items|
        invariant build.cppMode == old(build.cppMode)
        invariant ScanFrom(env, tdir, items, i, counter, Plan(build.includes, build.files)) == Scan(env, tdir, items)
      {
        var item := items[i];
        if IsIncludeCxx(item) {
          var stepFailure := AddMacro(env, tdir, build, item.mac, counter);
          if stepFailure.Some? {
            return stepFailure;
          }
          // The source bumps the counter before writing; either way a failure ends the scan.
          counter := counter + 1;
        }
        i := i + 1;
      }
      if counter == 0 {
        return Some(NoIncludeCxxMacrosFound);
      }
      return None;
    }

    /**
     * `Builder::new(rs_file)`. Fails exactly as `Expected` does; on success
     * the build is in C++ mode and holds exactly the include directories and
     * files of `Expected`, and the builder owns the temporary directory.
     */
    static method New(rsFile: Path, env: Env) returns (r: Result<Builder, Error>)
      ensures r.Err? <==> Expected(rsFile, env).Err?
      ensures r.Err? ==> r.error == Expected(rsFile, env).error
      ensures r.Ok? ==>
        fresh(r.value) && fresh(r.value.build) &&
        r.value.tdir == env.tempdir.value && r.value.build.cppMode &&
        r.value.build.includes == Expected(rsFile, env).value.includes &&
        r.value.build.files == Expected(rsFile, env).value.files
    {
      if env.tempdir.Err? {
        return Err(TempDirCreationFailed(env.tempdir.error));
      }
      var tdir := env.tempdir.value;
      var build := new Build();
      build.Cpp(true);
      var source := env.readToString(rsFile);
      if source.Err? {
        return Err(FileReadError(source.error));
      }
      var parsed := env.parseFile(source.value);
      if parsed.Err? {
        return Err(Syntax(parsed.error));
      }
      var items := parsed.value;
      assert Expected(rsFile, env) == Scan(env, tdir, items);
      var failure := AddAll(env, tdir, build, items);
      if failure.Some? {
        return Err(failure.value);
      }
      var builder := new Builder(build, tdir);
      return Ok(builder);
    }
  }
}
