/**
 * mineru/cli/client.py, the body of `main`: default three MINERU_* environment variables
 * (never overwriting one that is already set), pick the input documents, and build the
 * per-document lists for the parser, catching any exception of the batch.
 *
 * What `main` learns from the machine or from other modules (the device it detects, the
 * measured VRAM, the directory listing, `read_fn`, the PDF page count, the suffix lists of
 * mineru/cli/common.py) is a field of `Host`.
 */
module CliClient {
  import opened Wrappers
  import opened Text
  import opened UserDisplay

  /** A filesystem path: its parent directory and its final component. */
  datatype Path = Path(parent: string, name: string)

  type Bytes = seq<bv8>

  /** The command-line options `main` uses here. */
  datatype Options = Options(
    backend: string,
    lang: string,
    deviceMode: Option<string>,     // --device
    virtualVram: Option<int>,       // --vram
    modelSource: string,            // --source
    userFriendlyProgress: bool)

  datatype Host = Host(
    getDevice: map<string, string> -> string,  // get_device(), given os.environ at the call
    vramOf: string -> real,              // get_vram(device)
    inputIsDir: bool,                    // os.path.isdir(input_path)
    dirEntries: seq<Path>,               // Path(input_path).glob('*'), in listing order
    pdfSuffixes: seq<string>,
    imageSuffixes: seq<string>,
    readFn: Path -> Option<Bytes>,       // read_fn(path); None when it raises
    pageCount: Bytes -> Option<nat>,     // len(pdfium.PdfDocument(bytes)); None when it raises
    startClock: real,                    // time.monotonic() when the displayer is created
    elapsedAtShow: nat)                  // whole seconds elapsed when the batch is announced

  // ---------------------------------------------------------------- environment defaults

  const DeviceKey: string := "MINERU_DEVICE_MODE"
  const VramKey: string := "MINERU_VIRTUAL_VRAM_SIZE"
  const SourceKey: string := "MINERU_MODEL_SOURCE"

  /** get_device_mode: the `--device` option if given, otherwise what `get_device()` returned. */
  function DeviceMode(opts: Options, detected: string): string {
    if opts.deviceMode.Some? then opts.deviceMode.value else detected
  }

  /** Python's `round` on a float: to the nearest integer, ties to the even one. */
  function RoundHalfEven(x: real): (r: int)
    ensures r as real - 0.5 <= x <= r as real + 0.5
    ensures x == r as real - 0.5 || x == r as real + 0.5 ==> r % 2 == 0
  {
    var f := x.Floor;
    var frac := x - f as real;
    if frac < 0.5 then f
    else if frac > 0.5 then f + 1
    else if f % 2 == 0 then f else f + 1
  }

  /**
   * get_virtual_vram_size, given what get_device_mode returns at that point: the `--vram`
   * option if given; otherwise the rounded VRAM of a "cuda" or "npu" device; otherwise 1.
   */
  function VirtualVramSize(opts: Options, detected: string, vramOf: string -> real): int {
    if opts.virtualVram.Some? then opts.virtualVram.value
    else
      var device := DeviceMode(opts, detected);
      if StartsWith(device, "cuda") || StartsWith(device, "npu") then RoundHalfEven(vramOf(device)) else 1
  }

  /** `if os.getenv(key) is None: os.environ[key] = value`. */
  function SetIfAbsent(env: map<string, string>, key: string, value: string): map<string, string> {
    if key in env then env else env[key := value]
  }

  /** The environment after its first step, the one for MINERU_DEVICE_MODE. */
  function WithDeviceMode(env: map<string, string>, opts: Options, getDevice: map<string, string> -> string): map<string, string> {
    SetIfAbsent(env, DeviceKey, DeviceMode(opts, getDevice(env)))
  }

  /**
   * The environment after the defaulting block of `main`. `get_device()` is called with the
   * environment as it is at each call: the VRAM step sees the device mode the first step
   * may have written.
   */
  function EnvDefaults(env: map<string, string>, opts: Options, getDevice: map<string, string> -> string, vramOf: string -> real): (r: map<string, string>)
    ensures forall k :: k in env ==> k in r && r[k] == env[k]
    ensures r.Keys <= env.Keys + {DeviceKey, VramKey, SourceKey}
  {
    if EndsWith(opts.backend, "-client") then env
    else
      var withDevice := WithDeviceMode(env, opts, getDevice);
      var withVram := SetIfAbsent(withDevice, VramKey, IntToString(VirtualVramSize(opts, getDevice(withDevice), vramOf)));
      SetIfAbsent(withVram, SourceKey, opts.modelSource)
  }

  /** A backend ending in "-client" leaves the environment as it is. */
  lemma ClientBackendLeavesEnv(env: map<string, string>, opts: Options, getDevice: map<string, string> -> string, vramOf: string -> real)
    requires EndsWith(opts.backend, "-client")
    ensures EnvDefaults(env, opts, getDevice, vramOf) == env
  {
  }

  /** Any other backend ends with all three keys set, an absent one to its default. */
  lemma EnvDefaultsFillsAbsent(env: map<string, string>, opts: Options, getDevice: map<string, string> -> string, vramOf: string -> real)
    requires !EndsWith(opts.backend, "-client")
    ensures var r := EnvDefaults(env, opts, getDevice, vramOf);
            && DeviceKey in r && VramKey in r && SourceKey in r
            && (DeviceKey !in env ==> r[DeviceKey] == DeviceMode(opts, getDevice(env)))
            && (VramKey !in env ==>
                  r[VramKey] == IntToString(VirtualVramSize(opts, getDevice(WithDeviceMode(env, opts, getDevice)), vramOf)))
            && (SourceKey !in env ==> r[SourceKey] == opts.modelSource)
  {
  }

  /** Running the defaulting again changes nothing. */
  lemma EnvDefaultsIdempotent(env: map<string, string>, opts: Options, getDevice: map<string, string> -> string, vramOf: string -> real)
    ensures EnvDefaults(EnvDefaults(env, opts, getDevice, vramOf), opts, getDevice, vramOf)
            == EnvDefaults(env, opts, getDevice, vramOf)
  {
  }

  /**
   * When `get_device()` does not look at MINERU_DEVICE_MODE, the VRAM written does not
   * depend on a MINERU_DEVICE_MODE that was already set.
   */
  lemma VramIgnoresPresetDevice(env: map<string, string>, device: string, opts: Options, getDevice: map<string, string> -> string, vramOf: string -> real)
    requires !EndsWith(opts.backend, "-client") && VramKey !in env
    requires forall e: map<string, string> :: getDevice(e) == getDevice(e - {DeviceKey})
    ensures EnvDefaults(env[DeviceKey := device], opts, getDevice, vramOf)[VramKey]
            == EnvDefaults(env, opts, getDevice, vramOf)[VramKey]
  {
    var preset := env[DeviceKey := device];
    var w := WithDeviceMode(env, opts, getDevice);
    assert preset - {DeviceKey} == env - {DeviceKey};
    assert w - {DeviceKey} == env - {DeviceKey};
    assert getDevice(preset) == getDevice(preset - {DeviceKey});
    assert getDevice(w) == getDevice(w - {DeviceKey});
    assert getDevice(env) == getDevice(env - {DeviceKey});
  }

  /**
   * When `get_device()` returns MINERU_DEVICE_MODE whenever it is set, the VRAM written is
   * the one of `--device` if given; otherwise of the preset MINERU_DEVICE_MODE if there is
   * one; otherwise of the detected device.
   */
  lemma VramFollowsPresetDevice(env: map<string, string>, opts: Options, getDevice: map<string, string> -> string, vramOf: string -> real)
    requires !EndsWith(opts.backend, "-client") && VramKey !in env
    requires forall e: map<string, string> :: DeviceKey in e ==> getDevice(e) == e[DeviceKey]
    ensures EnvDefaults(env, opts, getDevice, vramOf)[VramKey]
            == IntToString(VirtualVramSize(opts, if DeviceKey in env then env[DeviceKey] else getDevice(env), vramOf))
  {
    var w := WithDeviceMode(env, opts, getDevice);
    assert DeviceKey in w;
  }

  /** The rule for the VRAM size, case by case. */
  lemma VirtualVramRule(opts: Options, detected: string, vramOf: string -> real)
    ensures opts.virtualVram.Some? ==> VirtualVramSize(opts, detected, vramOf) == opts.virtualVram.value
    ensures opts.virtualVram.None?
            && (StartsWith(DeviceMode(opts, detected), "cuda") || StartsWith(DeviceMode(opts, detected), "npu")) ==>
              var v := VirtualVramSize(opts, detected, vramOf);
              && v == RoundHalfEven(vramOf(DeviceMode(opts, detected)))
              && v as real - 0.5 <= vramOf(DeviceMode(opts, detected)) <= v as real + 0.5
    ensures (opts.virtualVram.None? && !StartsWith(DeviceMode(opts, detected), "cuda")
             && !StartsWith(DeviceMode(opts, detected), "npu")) ==> VirtualVramSize(opts, detected, vramOf) == 1
  {
  }

  /** `os.environ`, updated in place. */
  class ProcessEnv {
    var vars: map<string, string>

    constructor (vars: map<string, string>)
      ensures this.vars == vars
    {
      this.vars := vars;
    }

    /** The defaulting block at the start of `main`; `get_device()` reads the current variables. */
    method ApplyDefaults(opts: Options, getDevice: map<string, string> -> string, vramOf: string -> real)
      modifies this
      ensures vars == EnvDefaults(old(vars), opts, getDevice, vramOf)
    {
      if !EndsWith(opts.backend, "-client") {
        if DeviceKey !in vars {
          vars := vars[DeviceKey := DeviceMode(opts, getDevice(vars))];
        }
        if VramKey !in vars {
          vars := vars[VramKey := IntToString(VirtualVramSize(opts, getDevice(vars), vramOf))];
        }
        if SourceKey !in vars {
          vars := vars[SourceKey := opts.modelSource];
        }
      }
    }
  }

  // ---------------------------------------------------------------- input paths

  /** `str.rfind('.')`: the last position of a dot, or -1. */
  function LastDot(s: string): (i: int)
    ensures -1 <= i < |s|
    ensures i >= 0 ==> s[i] == '.'
    ensures forall j :: i < j < |s| ==> s[j] != '.'
  {
    if s == [] then -1
    else if s[|s| - 1] == '.' then |s| - 1
    else LastDot(s[..|s| - 1])
  }

  /** `PurePath.suffix`: from the last dot on, unless that dot starts or ends the name. */
  function Suffix(p: Path): string {
    var i := LastDot(p.name);
    if 0 < i < |p.name| - 1 then p.name[i..] else ""
  }

  /** `PurePath.stem`: the name without its suffix. */
  function Stem(p: Path): string {
    var i := LastDot(p.name);
    if 0 < i < |p.name| - 1 then p.name[..i] else p.name
  }

  /** Stem and suffix split the name; a suffix is a dot followed by at least one dot-free character. */
  lemma StemSuffixSplit(p: Path)
    ensures Stem(p) + Suffix(p) == p.name
    ensures Suffix(p) != "" ==>
              (|Suffix(p)| >= 2 && Suffix(p)[0] == '.' && Stem(p) != ""
               && forall j :: 0 < j < |Suffix(p)| ==> Suffix(p)[j] != '.')
  {
  }

  /** The entries whose suffix is in `allowed`, in listing order. */
  function Selected(entries: seq<Path>, allowed: seq<string>): (r: seq<Path>)
    ensures |r| <= |entries|
    ensures forall p :: p in r <==> p in entries && Suffix(p) in allowed
  {
    if entries == [] then []
    else
      var n := |entries| - 1;
      var p := Selected(entries[..n], allowed);
      assert entries == entries[..n] + [entries[n]];
      if Suffix(entries[n]) in allowed then p + [entries[n]] else p
  }

  /** The positions of the entries whose suffix is in `allowed`, in increasing order. */
  function SelectedIndices(entries: seq<Path>, allowed: seq<string>): (q: seq<nat>)
    ensures |q| <= |entries|
    ensures forall k :: 0 <= k < |q| ==> q[k] < |entries| && Suffix(entries[q[k]]) in allowed
    ensures forall k, l :: 0 <= k < l < |q| ==> q[k] < q[l]
    ensures forall i :: 0 <= i < |entries| && Suffix(entries[i]) in allowed ==> i in q
  {
    if entries == [] then []
    else
      var n := |entries| - 1;
      var p := SelectedIndices(entries[..n], allowed);
      if Suffix(entries[n]) in allowed then p + [n] else p
  }

  /** `r` lists the entries of `entries` at the positions `q`, one for one. */
  predicate PicksAt(r: seq<Path>, q: seq<nat>, entries: seq<Path>) {
    |r| == |q| && forall k :: 0 <= k < |q| ==> q[k] < |entries| && r[k] == entries[q[k]]
  }

  lemma PicksAtExtend(r: seq<Path>, q: seq<nat>, front: seq<Path>, x: Path)
    requires PicksAt(r, q, front)
    ensures PicksAt(r, q, front + [x])
    ensures PicksAt(r + [x], q + [|front|], front + [x])
  {
    forall k | 0 <= k < |q|
      ensures (front + [x])[q[k]] == front[q[k]]
    {
    }
  }

  /**
   * The selection keeps listing order and multiplicity: its k-th entry is the entry at the
   * k-th matching position of the listing.
   */
  lemma {:induction false} SelectedInOrder(entries: seq<Path>, allowed: seq<string>)
    ensures var q := SelectedIndices(entries, allowed);
            var r := Selected(entries, allowed);
            |r| == |q| && forall k :: 0 <= k < |q| ==> r[k] == entries[q[k]]
  {
    SelectedPicks(entries, allowed);
  }

  lemma {:induction false} SelectedPicks(entries: seq<Path>, allowed: seq<string>)
    ensures PicksAt(Selected(entries, allowed), SelectedIndices(entries, allowed), entries)
  {
    if entries != [] {
      var n := |entries| - 1;
      var front := entries[..n];
      assert entries == front + [entries[n]];
      SelectedPicks(front, allowed);
      PicksAtExtend(Selected(front, allowed), SelectedIndices(front, allowed), front, entries[n]);
    }
  }

  /** The documents `main` hands to parse_doc: the matching directory entries, or the file itself. */
  method InputPaths(host: Host, input: Path) returns (paths: seq<Path>)
    ensures !host.inputIsDir ==> paths == [input]
    ensures host.inputIsDir ==> paths == Selected(host.dirEntries, host.pdfSuffixes + host.imageSuffixes)
  {
    if !host.inputIsDir {
      return [input];
    }
    var allowed := host.pdfSuffixes + host.imageSuffixes;
    paths := [];
    for i := 0 to |host.dirEntries|
      invariant paths == Selected(host.dirEntries[..i], allowed)
    {
      assert host.dirEntries[..i + 1][..i] == host.dirEntries[..i];
      var docPath := host.dirEntries[i];
      if Suffix(docPath) in allowed {
        paths := paths + [docPath];
      }
    }
    assert host.dirEntries[..|host.dirEntries|] == host.dirEntries;
  }

  // ---------------------------------------------------------------- parse_doc

  /** Both `read_fn` and the page count return normally for this path. */
  predicate Readable(p: Path, readFn: Path -> Option<Bytes>, pageCount: Bytes -> Option<nat>) {
    readFn(p).Some? && pageCount(readFn(p).value).Some?
  }

  /** The total number of pages of the given documents. */
  function PageTotal(paths: seq<Path>, readFn: Path -> Option<Bytes>, pageCount: Bytes -> Option<nat>): nat
    requires forall k :: 0 <= k < |paths| ==> Readable(paths[k], readFn, pageCount)
  {
    if paths == [] then 0
    else
      assert Readable(paths[0], readFn, pageCount);
      pageCount(readFn(paths[0]).value).value + PageTotal(paths[1..], readFn, pageCount)
  }

  lemma {:induction false} PageTotalAppend(paths: seq<Path>, p: Path, readFn: Path -> Option<Bytes>, pageCount: Bytes -> Option<nat>)
    requires forall k :: 0 <= k < |paths| ==> Readable(paths[k], readFn, pageCount)
    requires Readable(p, readFn, pageCount)
    ensures forall k :: 0 <= k < |paths + [p]| ==> Readable((paths + [p])[k], readFn, pageCount)
    ensures PageTotal(paths + [p], readFn, pageCount)
            == PageTotal(paths, readFn, pageCount) + pageCount(readFn(p).value).value
  {
    if paths != [] {
      assert (paths + [p])[1..] == paths[1..] + [p];
      PageTotalAppend(paths[1..], p, readFn, pageCount);
    }
  }

  /** The lists parse_doc hands to do_parse, and its page total. */
  datatype Batch = Batch(fileNames: seq<string>, pdfBytes: seq<Bytes>, langs: seq<string>, totalPages: nat)

  /**
   * The loop of parse_doc, with the position of the first path whose read or page count
   * raises as the error: that exception ends the batch.
   */
  function Gather(paths: seq<Path>, lang: string, readFn: Path -> Option<Bytes>, pageCount: Bytes -> Option<nat>): (r: Result<Batch, nat>)
    ensures r.Ok? <==> forall k :: 0 <= k < |paths| ==> Readable(paths[k], readFn, pageCount)
    ensures r.Err? ==> r.error < |paths| && !Readable(paths[r.error], readFn, pageCount)
                       && forall j :: 0 <= j < r.error ==> Readable(paths[j], readFn, pageCount)
  {
    if paths == [] then Ok(Batch([], [], [], 0))
    else
      var n := |paths| - 1;
      var p := paths[n];
      assert forall k :: 0 <= k < n ==> paths[..n][k] == paths[k];
      match Gather(paths[..n], lang, readFn, pageCount)
      case Err(i) => Err(i)
      case Ok(b) =>
        if !Readable(p, readFn, pageCount) then Err(n)
        else
          var bytes := readFn(p).value;
          Ok(Batch(b.fileNames + [Stem(p)], b.pdfBytes + [bytes], b.langs + [lang],
                   b.totalPages + pageCount(bytes).value))
  }

  /**
   * A completed batch has one entry per path in each list, in path order, every language
   * equal to `lang`, and the pages of all documents summed.
   */
  lemma {:induction false} GatherShape(paths: seq<Path>, lang: string, readFn: Path -> Option<Bytes>, pageCount: Bytes -> Option<nat>)
    requires Gather(paths, lang, readFn, pageCount).Ok?
    ensures var b := Gather(paths, lang, readFn, pageCount).value;
            && |b.fileNames| == |b.pdfBytes| == |b.langs| == |paths|
            && (forall k :: 0 <= k < |paths| ==>
                  b.fileNames[k] == Stem(paths[k]) && b.langs[k] == lang && readFn(paths[k]) == Some(b.pdfBytes[k]))
            && b.totalPages == PageTotal(paths, readFn, pageCount)
  {
    if paths != [] {
      var n := |paths| - 1;
      var p := paths[n];
      assert paths == paths[..n] + [p];
      GatherShape(paths[..n], lang, readFn, pageCount);
      PageTotalAppend(paths[..n], p, readFn, pageCount);
      var b := Gather(paths, lang, readFn, pageCount).value;
      forall k | 0 <= k < |paths|
        ensures b.fileNames[k] == Stem(paths[k]) && b.langs[k] == lang && readFn(paths[k]) == Some(b.pdfBytes[k])
      {
        if k < n {
          assert paths[k] == paths[..n][k];
        }
      }
    }
  }

  /** The major-step message announcing the batch. */
  function Announcement(totalPages: nat): string {
    "收到任务，开始分析这份共 " + NatToString(totalPages) + " 页的文档..."
  }

  /**
   * What parse_doc leaves behind: the batch passed to do_parse with the announcement
   * printed before it, or the position of the path whose exception was caught and logged.
   * An exception raised by do_parse itself is caught the same way and does not change it.
   */
  datatype ParseOutcome = Dispatched(batch: Batch, printed: string) | Logged(failedAt: nat)

  function ParseDocOutcome(paths: seq<Path>, lang: string, host: Host, displayer: ProgressDisplayer): ParseOutcome {
    match Gather(paths, lang, host.readFn, host.pageCount)
    case Err(i) => Logged(i)
    case Ok(b) => Dispatched(b, Show(displayer, Announcement(b.totalPages), true, host.elapsedAtShow))
  }

  /** parse_doc: the loop over the paths inside one `try`. */
  method ParseDoc(paths: seq<Path>, lang: string, host: Host, displayer: ProgressDisplayer) returns (outcome: ParseOutcome)
    ensures outcome == ParseDocOutcome(paths, lang, host, displayer)
  {
    var fileNames: seq<string> := [];
    var pdfBytes: seq<Bytes> := [];
    var langs: seq<string> := [];
    var totalPages: nat := 0;
    for i := 0 to |paths|
      invariant Gather(paths[..i], lang, host.readFn, host.pageCount) == Ok(Batch(fileNames, pdfBytes, langs, totalPages))
    {
      assert paths[..i + 1][..i] == paths[..i];
      var bytes := host.readFn(paths[i]);
      if bytes.None? {
        return Logged(i);
      }
      fileNames := fileNames + [Stem(paths[i])];
      pdfBytes := pdfBytes + [bytes.value];
      langs := langs + [lang];
      var pages := host.pageCount(bytes.value);
      if pages.None? {
        return Logged(i);
      }
      totalPages := totalPages + pages.value;
    }
    assert paths[..|paths|] == paths;
    var printed := Show(displayer, Announcement(totalPages), true, host.elapsedAtShow);
    return Dispatched(Batch(fileNames, pdfBytes, langs, totalPages), printed);
  }

  /**
   * `main` from the displayer on: default the environment, choose the documents, run
   * parse_doc on them. No exception of the batch leaves `main`.
   */
  method RunClient(env: ProcessEnv, opts: Options, input: Path, host: Host) returns (outcome: ParseOutcome)
    modifies env
    ensures env.vars == EnvDefaults(old(env.vars), opts, host.getDevice, host.vramOf)
    ensures outcome == ParseDocOutcome(
              if host.inputIsDir then Selected(host.dirEntries, host.pdfSuffixes + host.imageSuffixes) else [input],
              opts.lang, host, NewDisplayer(opts.userFriendlyProgress, host.startClock))
  {
    var displayer := NewDisplayer(opts.userFriendlyProgress, host.startClock);
    env.ApplyDefaults(opts, host.getDevice, host.vramOf);
    var paths := InputPaths(host, input);
    outcome := ParseDoc(paths, opts.lang, host, displayer);
  }
}
