/** ext/registry.go and ext/lifecycle.go: extensions registered by name,
    loaded from the plugin files of a directory and driven through the
    configure, enable and disable phases. */
module ExtRegistry {
  import opened Wrappers
  import opened GoStrings

  /** A loaded extension. It is known by `Info().Name`; `id` tells apart
      two plugins that report the same name. */
  datatype Extension = Extension(name: string, id: nat)

  const LifecycleConfigure: int := 0
  const LifecycleEnable: int := 1
  const LifecycleDisable: int := 2

  /** The three methods a phase can call on an extension. */
  datatype Step = Configure | Enable | Disable

  function PhaseStep(phase: int): (s: Option<Step>)
    ensures s.Some? <==> 0 <= phase <= 2
  {
    if phase == LifecycleConfigure then Some(Configure)
    else if phase == LifecycleEnable then Some(Enable)
    else if phase == LifecycleDisable then Some(Disable)
    else None
  }

  datatype Call = Call(ext: Extension, step: Step)

  /** The names of the extensions called. */
  function Names(calls: seq<Call>): set<string> {
    set i | 0 <= i < |calls| :: calls[i].ext.name
  }

  /** No extension is called twice. */
  predicate Distinct(calls: seq<Call>) {
    forall i, j :: 0 <= i < j < |calls| ==> calls[i].ext.name != calls[j].ext.name
  }

  /** The call runs the phase's method on a registered extension. */
  predicate CallsWith(call: Call, step: Option<Step>, exts: map<string, Extension>) {
    step.Some? && call.step == step.value && call.ext.name in exts && exts[call.ext.name] == call.ext
  }

  lemma NamesAppend(calls: seq<Call>, call: Call)
    ensures Names(calls + [call]) == Names(calls) + {call.ext.name}
  {
    var xs := calls + [call];
    assert forall i :: 0 <= i < |calls| ==> xs[i] == calls[i];
    assert xs[|calls|] == call;
  }

  /** Distinct calls have as many names as calls. */
  lemma {:induction false} DistinctCard(calls: seq<Call>)
    requires Distinct(calls)
    ensures |Names(calls)| == |calls|
    decreases |calls|
  {
    if calls != [] {
      var init := calls[..|calls| - 1];
      DistinctCard(init);
      NamesAppend(init, calls[|calls| - 1]);
      assert init + [calls[|calls| - 1]] == calls;
      assert calls[|calls| - 1].ext.name !in Names(init);
    }
  }

  /** One turn of the phase loop keeps its invariant. */
  lemma CallStep(calls: seq<Call>, call: Call, remaining: set<string>, step: Option<Step>, exts: Extensions)
    requires remaining <= exts.Keys && call.ext.name in remaining
    requires Names(calls) == exts.Keys - remaining && Distinct(calls)
    requires CallsWith(call, step, exts)
    ensures Names(calls + [call]) == exts.Keys - (remaining - {call.ext.name})
    ensures Distinct(calls + [call])
  {
    assert forall i :: 0 <= i < |calls| ==> calls[i].ext.name in Names(calls);
    NamesAppend(calls, call);
  }

  /** A phase either calls every extension, or panics on an unknown phase id. */
  datatype PhaseOutcome = Completed(calls: seq<Call>) | Panicked(message: string)

  /** `%d` of a Go int. */
  function Decimal(n: int): string
    decreases if n < 0 then 1 - n else n
  {
    if n < 0 then "-" + Decimal(-n)
    else if n < 10 then [('0' as int + n) as char]
    else Decimal(n / 10) + [('0' as int + n % 10) as char]
  }

  type Extensions = map<string, Extension>

  /** Every extension is filed under its own name. */
  predicate NamedByKey(exts: Extensions) {
    forall n :: n in exts ==> exts[n].name == n
  }

  /** `IsRegistered`: only the name counts. */
  predicate Registered(exts: Extensions, ext: Extension) {
    ext.name in exts
  }

  function DuplicateMessage(name: string): string {
    "theres already an extension with the name '" + name + "'"
  }

  /** `Register`: an unused name is added; a used one is an error and
      leaves the map as it was. */
  function AfterRegister(exts: Extensions, ext: Extension): Result<Extensions, string> {
    if Registered(exts, ext) then Err(DuplicateMessage(ext.name)) else Ok(exts[ext.name := ext])
  }

  lemma RegisteredByName(exts: Extensions, a: Extension, b: Extension)
    requires a.name == b.name
    ensures Registered(exts, a) == Registered(exts, b)
  {
  }

  /** Registering an unused name files the extension under it, changes no
      other name and keeps the map named by key. */
  lemma RegisterFresh(exts: Extensions, ext: Extension, other: string)
    requires !Registered(exts, ext)
    ensures AfterRegister(exts, ext).Ok?
    ensures Registered(AfterRegister(exts, ext).value, ext)
    ensures AfterRegister(exts, ext).value[ext.name] == ext
    ensures other != ext.name ==> (other in AfterRegister(exts, ext).value <==> other in exts)
    ensures other != ext.name && other in exts ==> AfterRegister(exts, ext).value[other] == exts[other]
    ensures NamedByKey(exts) ==> NamedByKey(AfterRegister(exts, ext).value)
  {
  }

  /** A second extension with a used name is refused; the first stays. */
  lemma RegisterDuplicate(exts: Extensions, first: Extension, second: Extension)
    requires AfterRegister(exts, first).Ok? && first.name == second.name
    ensures AfterRegister(AfterRegister(exts, first).value, second) == Err(DuplicateMessage(second.name))
    ensures AfterRegister(exts, first).value[first.name] == first
  {
  }

  /** A directory entry as `os.ReadDir` lists it. */
  datatype DirEntry = DirEntry(name: string, isDir: bool)

  /** The entries `RegisterDir` loads: files whose name ends in `.so`. */
  predicate IsPlugin(entry: DirEntry) {
    !entry.isDir && HasSuffix(entry.name, ".so")
  }

  /** The error `RegisterDir` returned, if any, and the extensions then registered. */
  datatype DirOutcome = DirOutcome(err: Option<string>, extensions: Extensions)

  /** The loop of `RegisterDir` from the given entry on: skip what is not a
      plugin, open the rest and register them, stop at the first error. */
  function RegisterEntries(exts: Extensions, entries: seq<DirEntry>, open: string -> Result<Extension, string>): DirOutcome
    decreases |entries|
  {
    if entries == [] then DirOutcome(None, exts)
    else if !IsPlugin(entries[0]) then RegisterEntries(exts, entries[1..], open)
    else match open(entries[0].name)
      case Err(e) => DirOutcome(Some(e), exts)
      case Ok(ext) =>
        match AfterRegister(exts, ext)
        case Err(e) => DirOutcome(Some(e), exts)
        case Ok(next) => RegisterEntries(next, entries[1..], open)
  }

  /** Loading never removes or replaces an extension, success or not, and
      keeps the map named by key. */
  lemma {:induction false} RegisterEntriesKeeps(exts: Extensions, entries: seq<DirEntry>, open: string -> Result<Extension, string>, n: string)
    requires n in exts
    ensures n in RegisterEntries(exts, entries, open).extensions
    ensures RegisterEntries(exts, entries, open).extensions[n] == exts[n]
    decreases |entries|
  {
    if entries != [] && IsPlugin(entries[0]) && open(entries[0].name).Ok? {
      var ext := open(entries[0].name).value;
      if AfterRegister(exts, ext).Ok? {
        RegisterEntriesKeeps(AfterRegister(exts, ext).value, entries[1..], open, n);
      }
    } else if entries != [] && !IsPlugin(entries[0]) {
      RegisterEntriesKeeps(exts, entries[1..], open, n);
    }
  }

  lemma {:induction false} RegisterEntriesNamed(exts: Extensions, entries: seq<DirEntry>, open: string -> Result<Extension, string>)
    requires NamedByKey(exts)
    ensures NamedByKey(RegisterEntries(exts, entries, open).extensions)
    decreases |entries|
  {
    if entries != [] && IsPlugin(entries[0]) && open(entries[0].name).Ok? {
      var ext := open(entries[0].name).value;
      if AfterRegister(exts, ext).Ok? {
        RegisterEntriesNamed(AfterRegister(exts, ext).value, entries[1..], open);
      }
    } else if entries != [] && !IsPlugin(entries[0]) {
      RegisterEntriesNamed(exts, entries[1..], open);
    }
  }

  /** On success every plugin of the directory is registered under the name it reports. */
  lemma {:induction false} RegisterEntriesLoadsAll(exts: Extensions, entries: seq<DirEntry>, open: string -> Result<Extension, string>, i: nat)
    requires i < |entries| && IsPlugin(entries[i])
    requires RegisterEntries(exts, entries, open).err.None?
    ensures open(entries[i].name).Ok?
    ensures open(entries[i].name).value.name in RegisterEntries(exts, entries, open).extensions
    ensures RegisterEntries(exts, entries, open).extensions[open(entries[i].name).value.name] == open(entries[i].name).value
    decreases |entries|
  {
    if !IsPlugin(entries[0]) {
      RegisterEntriesLoadsAll(exts, entries[1..], open, i - 1);
    } else {
      var ext := open(entries[0].name).value;
      var next := AfterRegister(exts, ext).value;
      if i == 0 {
        RegisterEntriesKeeps(next, entries[1..], open, ext.name);
      } else {
        RegisterEntriesLoadsAll(next, entries[1..], open, i - 1);
      }
    }
  }

  /** A directory without plugin files registers nothing and succeeds. */
  lemma {:induction false} RegisterEntriesSkips(exts: Extensions, entries: seq<DirEntry>, open: string -> Result<Extension, string>)
    requires forall i :: 0 <= i < |entries| ==> !IsPlugin(entries[i])
    ensures RegisterEntries(exts, entries, open) == DirOutcome(None, exts)
    decreases |entries|
  {
    if entries != [] {
      RegisterEntriesSkips(exts, entries[1..], open);
    }
  }

  /** The plugin files of a listing, in the order `os.ReadDir` gives them. */
  function Plugins(entries: seq<DirEntry>): (ps: seq<DirEntry>)
    ensures forall i :: 0 <= i < |ps| ==> IsPlugin(ps[i])
    decreases |entries|
  {
    if entries == [] then []
    else (if IsPlugin(entries[0]) then [entries[0]] else []) + Plugins(entries[1..])
  }

  /** Entries that are not plugins are skipped wherever they stand: the
      outcome is that of the plugin files alone. */
  lemma {:induction false} RegisterEntriesFiltered(exts: Extensions, entries: seq<DirEntry>, open: string -> Result<Extension, string>)
    ensures RegisterEntries(exts, entries, open) == RegisterEntries(exts, Plugins(entries), open)
    decreases |entries|
  {
    if entries != [] {
      var rest := Plugins(entries[1..]);
      if !IsPlugin(entries[0]) {
        assert Plugins(entries) == rest;
        RegisterEntriesFiltered(exts, entries[1..], open);
      } else {
        var ps := [entries[0]] + rest;
        assert Plugins(entries) == ps;
        assert ps[0] == entries[0] && ps[1..] == rest;
        match open(entries[0].name)
        case Err(_) =>
        case Ok(ext) =>
          match AfterRegister(exts, ext)
          case Err(_) =>
          case Ok(next) => RegisterEntriesFiltered(next, entries[1..], open);
      }
    }
  }

  /** The listing is processed front to back: an error in the first part
      ends the loop there, and otherwise the second part starts from the
      extensions the first part registered. */
  lemma {:induction false} RegisterEntriesSplit(exts: Extensions, xs: seq<DirEntry>, ys: seq<DirEntry>, open: string -> Result<Extension, string>)
    ensures RegisterEntries(exts, xs, open).err.Some? ==>
      RegisterEntries(exts, xs + ys, open) == RegisterEntries(exts, xs, open)
    ensures RegisterEntries(exts, xs, open).err.None? ==>
      RegisterEntries(exts, xs + ys, open) == RegisterEntries(RegisterEntries(exts, xs, open).extensions, ys, open)
    decreases |xs|
  {
    if xs == [] {
      assert xs + ys == ys;
    } else {
      var zs := xs + ys;
      assert zs[0] == xs[0] && zs[1..] == xs[1..] + ys;
      if !IsPlugin(xs[0]) {
        RegisterEntriesSplit(exts, xs[1..], ys, open);
      } else {
        match open(xs[0].name)
        case Err(_) =>
        case Ok(ext) =>
          match AfterRegister(exts, ext)
          case Err(_) =>
          case Ok(next) => RegisterEntriesSplit(next, xs[1..], ys, open);
      }
    }
  }

  /** The first plugin that fails to open or to register ends `RegisterDir`
      with its error; what the entries before it registered stays, and the
      entries after it are never looked at. */
  lemma RegisterEntriesStops(exts: Extensions, entries: seq<DirEntry>, open: string -> Result<Extension, string>, i: nat)
    requires i < |entries| && IsPlugin(entries[i])
    requires RegisterEntries(exts, entries[..i], open).err.None?
    ensures var before := RegisterEntries(exts, entries[..i], open).extensions;
      open(entries[i].name).Err? ==>
        RegisterEntries(exts, entries, open) == DirOutcome(Some(open(entries[i].name).error), before)
    ensures var before := RegisterEntries(exts, entries[..i], open).extensions;
      open(entries[i].name).Ok? && AfterRegister(before, open(entries[i].name).value).Err? ==>
        RegisterEntries(exts, entries, open) == DirOutcome(Some(AfterRegister(before, open(entries[i].name).value).error), before)
  {
    assert entries[..i] + entries[i..] == entries;
    RegisterEntriesSplit(exts, entries[..i], entries[i..], open);
    assert entries[i..][0] == entries[i];
  }

  /** The outcome of `RegisterDir`, given what `os.ReadDir` returned. */
  function RegisterDirOutcome(exts: Extensions, listing: Result<seq<DirEntry>, string>, open: string -> Result<Extension, string>): DirOutcome {
    match listing
    case Err(e) => DirOutcome(Some(e), exts)
    case Ok(entries) => RegisterEntries(exts, entries, open)
  }

  class Registry {
    var extensions: Extensions

    ghost predicate Valid()
      reads this
    {
      NamedByKey(extensions)
    }

    /** `NewRegistry`: empty. */
    constructor ()
      ensures Valid() && extensions == map[]
    {
      extensions := map[];
    }

    /** Only the name counts: in a valid registry the answer is whether
        some registered extension reports the same name. */
    function IsRegistered(ext: Extension): (r: bool)
      reads this
      ensures Valid() ==> (r <==> exists n :: n in extensions && extensions[n].name == ext.name)
    {
      Registered(extensions, ext)
    }

    method Register(ext: Extension) returns (err: Option<string>)
      requires Valid()
      modifies this
      ensures Valid()
      ensures old(AfterRegister(extensions, ext)).Err? ==>
        err == Some(old(AfterRegister(extensions, ext)).error) && extensions == old(extensions)
      ensures old(AfterRegister(extensions, ext)).Ok? ==>
        err.None? && extensions == old(AfterRegister(extensions, ext)).value
    {
      if IsRegistered(ext) {
        return Some(DuplicateMessage(ext.name));
      }
      extensions := extensions[ext.name := ext];
      err := None;
    }

    /** `RegisterDir`, with the directory listing and the plugin loader
        passed in; `open` receives the entry's name. */
    method RegisterDir(listing: Result<seq<DirEntry>, string>, open: string -> Result<Extension, string>) returns (err: Option<string>)
      requires Valid()
      modifies this
      ensures Valid()
      ensures DirOutcome(err, extensions) == RegisterDirOutcome(old(extensions), listing, open)
    {
      if listing.Err? {
        return Some(listing.error);
      }
      var entries := listing.value;
      var i := 0;
      while i < |entries|
        invariant 0 <= i <= |entries|
        invariant Valid()
        invariant RegisterEntries(old(extensions), entries, open) == RegisterEntries(extensions, entries[i..], open)
      {
        assert entries[i..][1..] == entries[i + 1..];
        var entry := entries[i];
        if entry.isDir || !HasSuffix(entry.name, ".so") {
          i := i + 1;
          continue;
        }
        var loaded := open(entry.name);
        if loaded.Err? {
          return Some(loaded.error);
        }
        err := Register(loaded.value);
        if err.Some? {
          return err;
        }
        i := i + 1;
      }
      err := None;
    }

    /** `RunLifecyclePhase`: call the phase's method once on every
        registered extension, in an unspecified order; an unknown phase
        panics at the first extension, before any call. */
    method RunLifecyclePhase(phase: int) returns (outcome: PhaseOutcome)
      requires Valid()
      ensures PhaseStep(phase).None? && extensions != map[] ==>
        outcome == Panicked("unknown lifecycle phase with id '" + Decimal(phase) + "'")
      ensures PhaseStep(phase).None? && extensions == map[] ==> outcome == Completed([])
      ensures PhaseStep(phase).Some? ==> outcome.Completed?
      ensures outcome.Completed? ==> forall i :: 0 <= i < |outcome.calls| ==>
        CallsWith(outcome.calls[i], PhaseStep(phase), extensions)
      ensures outcome.Completed? ==> Distinct(outcome.calls)
      ensures outcome.Completed? ==> Names(outcome.calls) == extensions.Keys
      ensures outcome.Completed? ==> |outcome.calls| == |extensions|
    {
      var remaining := extensions.Keys;
      var calls: seq<Call> := [];
      var step := PhaseStep(phase);
      while remaining != {}
        invariant remaining <= extensions.Keys
        invariant Names(calls) == extensions.Keys - remaining
        invariant forall i :: 0 <= i < |calls| ==> CallsWith(calls[i], step, extensions)
        invariant Distinct(calls)
        decreases |remaining|
      {
        var name :| name in remaining;
        if step.None? {
          return Panicked("unknown lifecycle phase with id '" + Decimal(phase) + "'");
        }
        var call := Call(extensions[name], step.value);
        CallStep(calls, call, remaining, step, extensions);
        calls := calls + [call];
        remaining := remaining - {name};
      }
      DistinctCard(calls);
      outcome := Completed(calls);
    }
  }

  /** A registered extension is found by any extension with its name. */
  method RegisterScenario(a: Extension, b: Extension) returns (r: Registry, first: Option<string>, second: Option<string>)
    requires a.name == b.name
    ensures first.None? && second == Some(DuplicateMessage(a.name))
    ensures r.IsRegistered(b) && r.extensions == map[a.name := a]
  {
    r := new Registry();
    first := r.Register(a);
    second := r.Register(b);
  }
}
